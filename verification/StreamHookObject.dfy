/** The stream hook as the object it is: a reader that advances over a packet, and an
    inspector whose fields change per packet and which publishes on its broadcaster. */
module StreamHookObject {
  import opened Seqs
  import opened Wire
  import opened Broadcast
  import opened BroadcasterObject
  import H = StreamHook

  class PacketReader {
    const data: Bytes
    var pos: nat

    ghost predicate Valid()
      reads this
    {
      pos <= |data|
    }

    ghost function Rest(): Bytes
      requires Valid()
      reads this
    {
      data[pos..]
    }

    constructor (data: Bytes)
      ensures Valid() && Rest() == data
    {
      this.data, pos := data, 0;
    }

    method ReadByte()
      requires Valid()
      modifies this
      ensures Valid() && Rest() == H.SkipByte(old(Rest()))
    {
      if pos < |data| {
        pos := pos + 1;
      }
    }

    /** A short read consumes what is left and yields zero. */
    method ReadWord() returns (w: nat)
      requires Valid()
      modifies this
      ensures Valid() && (w, Rest()) == H.ReadWord(old(Rest()))
    {
      if |data| - pos < 4 {
        w, pos := 0, |data|;
        assert Rest() == [];
        return;
      }
      w := ReadU32(data[pos..]);
      pos := pos + 4;
      assert data[old(pos)..][4..] == data[pos..];
    }

    method ReadString() returns (s: Bytes)
      requires Valid()
      modifies this
      ensures Valid() && (s, Rest()) == H.ReadString(old(Rest()))
    {
      var short := |data| - pos < 4;
      ghost var rest := Rest();
      var n := ReadWord();
      if short || n > |data| - pos {
        return [];
      }
      s := data[pos..pos + n];
      pos := pos + n;
      assert rest[4..4 + n] == s && rest[4 + n..] == data[pos..];
    }
  }

  class Inspector {
    const bc: Broadcaster
    var clientOf: map<nat, nat>
    var started: set<nat>
    var pendingEnv: map<Bytes, Bytes>
    var pendingTerm: Bytes
    var pendingW: nat
    var pendingH: nat

    ghost function Value(): H.Hook
      reads this
    {
      H.Hook(clientOf, started, pendingEnv, pendingTerm, pendingW, pendingH)
    }

    constructor (bc: Broadcaster)
      ensures Value() == H.FRESH && this.bc == bc
    {
      this.bc := bc;
      clientOf, started, pendingEnv, pendingTerm, pendingW, pendingH := map[], {}, map[], [], 0, 0;
    }

    /** Passes the packet on unchanged and publishes its output frame if somebody watches. */
    method Up(msg: Bytes) returns (out: Bytes)
      requires bc.Valid()
      modifies this`clientOf, bc, bc.history, bc.subscribers
      ensures bc.Valid() && out == msg
      ensures Value() == H.UpHook(old(Value()), msg)
      ensures bc.Published(if old(bc.subscribers) == {} then None else H.UpFrame(old(Value()), msg))
    {
      out := msg;
      if |msg| == 0 {
        return;
      }
      var watched := bc.HasSubscribers();
      if msg[0] == MSG_CHANNEL_DATA {
        if !watched || |msg| < 9 {
          return;
        }
        var client := ReadU32(msg[1..5]);
        if client !in started {
          return;
        }
        bc.Publish(Output(client, msg[9..]));
      } else if msg[0] == MSG_CHANNEL_OPEN_CONFIRM {
        if |msg| < 9 {
          return;
        }
        var client := ReadU32(msg[1..5]);
        var server := ReadU32(msg[5..9]);
        clientOf := clientOf[server := client];
      }
    }

    /** The copy of the collected environment that goes into a header. */
    method CopyEnv() returns (env: map<Bytes, Bytes>)
      ensures env == H.HeaderEnv(Value())
    {
      env := map[];
      var todo := pendingEnv.Keys;
      while todo != {}
        invariant todo <= pendingEnv.Keys
        invariant env.Keys == pendingEnv.Keys - todo
        invariant forall k :: k in env ==> env[k] == pendingEnv[k]
        decreases |todo|
      {
        var k :| k in todo;
        env := env[k := pendingEnv[k]];
        todo := todo - {k};
      }
      assert env == pendingEnv;
      if pendingTerm != [] {
        env := env[Ascii("TERM") := pendingTerm];
      }
    }

    /** A shell or exec request: the channel is marked as started, the collected state is
        reset, and the header is ready to be published. */
    method StartChannel(server: nat) returns (f: Option<Frame>)
      modifies this
      ensures (Value(), f) == H.Start(old(Value()), server)
    {
      if server !in clientOf {
        return None;
      }
      var client := clientOf[server];
      var env := CopyEnv();
      f := Some(Header(client, pendingW, pendingH, env));
      pendingEnv, pendingTerm, pendingW, pendingH := map[], [], 0, 0;
      started := started + {client};
    }

    method Collect(kind: Bytes, server: nat, reader: PacketReader) returns (f: Option<Frame>)
      requires reader.Valid()
      modifies this, reader
      ensures (Value(), f) == H.OnRequest(old(Value()), server, kind, old(reader.Rest()))
    {
      f := None;
      if kind == Ascii("pty-req") {
        reader.ReadByte();
        var term := reader.ReadString();
        var w := reader.ReadWord();
        var hgt := reader.ReadWord();
        pendingTerm, pendingW, pendingH := term, w, hgt;
      } else if kind == Ascii("env") {
        reader.ReadByte();
        var k := reader.ReadString();
        var v := reader.ReadString();
        pendingEnv := pendingEnv[k := v];
      } else if kind == Ascii("window-change") {
        reader.ReadByte();
        var w := reader.ReadWord();
        var hgt := reader.ReadWord();
        if server in clientOf {
          f := Some(Resize(clientOf[server], w, hgt));
        }
      } else if kind == Ascii("shell") || kind == Ascii("exec") {
        f := StartChannel(server);
      }
    }

    /** Passes the packet on unchanged and publishes the frame it gives rise to. */
    method Down(msg: Bytes) returns (out: Bytes)
      requires bc.Valid()
      modifies this, bc, bc.history, bc.subscribers
      ensures bc.Valid() && out == msg
      ensures Value() == H.Down(old(Value()), msg).0
      ensures bc.Published(H.Down(old(Value()), msg).1)
    {
      out := msg;
      if |msg| < 5 || msg[0] != MSG_CHANNEL_REQUEST {
        return;
      }
      var server := ReadU32(msg[1..5]);
      var reader := new PacketReader(msg[5..]);
      var kind := reader.ReadString();
      var f := Collect(kind, server, reader);
      if f.Some? {
        bc.Publish(f.value);
      }
    }
  }
}
