/** The connect-side objects: a pipe with its authentication flag and throttle, and the
    table that leads from a downstream UniqueID to its newest pipe. */
module ConnectObject {
  import opened Seqs
  import opened Registry
  import opened RegistryObject
  import R = Registry
  import C = Connect

  class ChannelConn {
    const reg: TunnelRegistry
    const guid: Guid
    const uid: string
    const id: ChanId
    var authed: bool
    var lastTouch: int

    constructor (reg: TunnelRegistry, guid: Guid, uid: string, id: ChanId)
      ensures this.reg == reg && this.guid == guid && this.uid == uid && this.id == id
      ensures !authed && lastTouch == 0
    {
      this.reg := reg;
      this.guid := guid;
      this.uid := uid;
      this.id := id;
      authed := false;
      lastTouch := 0;
    }

    /** The pipe as the state machine sees it between touches. */
    ghost function View(): (c: C.Chan)
      reads this
    {
      C.Chan(guid, uid, authed, lastTouch, 0, None)
    }

    /** Undisturbed, a touch either reaches the registry or was not due: it is one
        traffic step of the state machine followed by the delivery of its touch. */
    method Touch(now: Time, ghost s: C.Sys)
      requires s.now == now
      modifies this`lastTouch, reg
      ensures var c := C.DoTraffic(s, old(View()));
              && lastTouch == c.lastTouch
              && reg.State() == (if c.pending > 0 then R.Touch(old(reg.State()), guid, now) else old(reg.State()))
    {
      if !authed { return; }
      var seconds := C.Unix(now);
      if seconds - lastTouch < 30 { return; }
      lastTouch := seconds;
      reg.Touch(guid, now);
    }

    /** A transfer reaches the registry exactly when bytes moved, the pipe is
        authenticated and its last touch is 30 seconds old; otherwise nothing changes. */
    method Transferred(n: nat, now: Time)
      modifies this`lastTouch, reg
      ensures var due := n > 0 && authed && C.Unix(now) - old(lastTouch) >= 30;
              && lastTouch == (if due then C.Unix(now) else old(lastTouch))
              && reg.State() == (if due then R.Touch(old(reg.State()), guid, now) else old(reg.State()))
    {
      if n > 0 {
        ghost var s: C.Sys := C.Init(None, 0, now);
        Touch(now, s);
      }
    }
  }

  class PipeTable {
    var pipes: map<string, ChannelConn>

    constructor ()
      ensures pipes == map[]
    {
      pipes := map[];
    }

    method Store(c: ChannelConn)
      modifies this
      ensures pipes == if c.uid == "" then old(pipes) else old(pipes)[c.uid := c]
    {
      if c.uid != "" { pipes := pipes[c.uid := c]; }
    }

    /** Upstream authentication succeeded: the newest pipe of the UniqueID, and only
        that one, becomes authenticated and counts as activity. */
    method PipeStart(uid: string, now: Time)
      modifies this, if uid in pipes then {pipes[uid], pipes[uid].reg} else {}
      ensures pipes == old(pipes) - {uid}
      ensures uid in old(pipes) ==>
                && old(pipes)[uid].authed
                && old(pipes)[uid].lastTouch == old(pipes[uid].lastTouch)
                && old(pipes)[uid].reg.State() == R.Touch(old(pipes[uid].reg.State()), old(pipes)[uid].guid, now)
    {
      if uid in pipes {
        var c := pipes[uid];
        pipes := pipes - {uid};
        c.authed := true;
        c.reg.Touch(c.guid, now);
      } else {
        assert pipes - {uid} == pipes;
      }
    }

    /** Closing drops the table entry only if it still leads to this pipe: a retry under
        the same UniqueID may have stored a newer one. */
    method CleanupPendingPipe(c: ChannelConn)
      modifies this
      ensures pipes == if c.uid != "" && c.uid in old(pipes) && old(pipes)[c.uid] == c then old(pipes) - {c.uid} else old(pipes)
      ensures forall uid :: uid in old(pipes) && old(pipes)[uid] != c ==> uid in pipes && pipes[uid] == old(pipes)[uid]
    {
      if c.uid != "" && c.uid in pipes && pipes[c.uid] == c { pipes := pipes - {c.uid}; }
    }
  }
}
