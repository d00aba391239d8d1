/** The keyboard-interactive exchange between the daemon and a plugin: two loops that
    talk over one bidirectional stream, in every interleaving and for every behaviour
    of the plugin's callback and of the client. */
module Keyboard {
  import opened Seqs

  datatype Prompt = Prompt(name: string, instruction: string, questions: seq<(string, bool)>)

  datatype PluginMsg = MetaRequest | PromptRequest(prompt: Prompt) | FinishRequest(upstream: Option<string>)
  datatype DaemonMsg = MetaResponse | UserResponse(answers: seq<string>)

  /** The plugin's handler: before its first message, waiting for the meta data, inside
      the callback, waiting for the answer to a question, returned (with the upstream it
      announced, or with an error). */
  datatype Plugin = Starting | AwaitingMeta | InCallback | AwaitingAnswer(prompt: Prompt) | Returned(result: Option<Option<string>>)

  /** What the daemon's callback returns. `EndOfStream` is the pair of nils it returns
      when the stream ends without a finish message. */
  datatype Outcome = Accepted(upstream: string) | NoUpstream | PluginError | ClientError | EndOfStream

  datatype Daemon = Receiving | Prompting(prompt: Prompt) | Done(outcome: Outcome)

  /** `asked`, `shown` and `got` are history: prompts sent by the callback's challenge
      calls, prompts put to the client with its answers, and question calls that
      received a user response, with that response. */
  datatype Sys = Sys(
    plugin: Plugin,
    daemon: Daemon,
    toDaemon: seq<PluginMsg>,
    toPlugin: seq<DaemonMsg>,
    asked: seq<Prompt>,
    shown: seq<(Prompt, seq<string>)>,
    got: seq<(Prompt, seq<string>)>)

  datatype Step =
    | Begin
    | Challenge(name: string, instruction: string, question: string, echo: bool)
    | CallbackReturns(upstream: Option<string>, failed: bool)
    | PluginReceives
    | DaemonReceives
    | ClientAnswers(answers: seq<string>)
    | ClientFails

  /** A challenge call with an empty question sends a prompt without questions. */
  function PromptFor(name: string, instruction: string, question: string, echo: bool): Prompt {
    Prompt(name, instruction, if question == "" then [] else [(question, echo)])
  }

  function DoPluginReceives(s: Sys): Sys {
    if s.toPlugin == [] then
      // End of stream once the daemon has gone.
      if s.daemon.Done? then
        match s.plugin
        case AwaitingMeta => s.(plugin := Returned(None))
        case AwaitingAnswer(_) => s.(plugin := InCallback)
        case _ => s
      else s
    else
      var msg, rest := s.toPlugin[0], s.toPlugin[1..];
      match s.plugin
      case AwaitingMeta => s.(toPlugin := rest, plugin := if msg.MetaResponse? then InCallback else Returned(None))
      case AwaitingAnswer(p) =>
        s.(toPlugin := rest, plugin := InCallback,
           got := if msg.UserResponse? then s.got + [(p, msg.answers)] else s.got)
      case _ => s
  }

  function DoDaemonReceives(s: Sys): Sys {
    if !s.daemon.Receiving? then s
    else if s.toDaemon == [] then
      // An error ends the stream with a status, a nil return with end-of-file.
      (if s.plugin.Returned? then s.(daemon := Done(if s.plugin.result.None? then PluginError else EndOfStream)) else s)
    else
      var msg, rest := s.toDaemon[0], s.toDaemon[1..];
      match msg
      case PromptRequest(p) => s.(toDaemon := rest, daemon := Prompting(p))
      case MetaRequest => s.(toDaemon := rest, toPlugin := s.toPlugin + [MetaResponse])
      case FinishRequest(u) => s.(toDaemon := rest, daemon := Done(if u.Some? then Accepted(u.value) else NoUpstream))
  }

  function Next(s: Sys, step: Step): Sys {
    match step
    case Begin =>
      if s.plugin.Starting? then s.(plugin := AwaitingMeta, toDaemon := s.toDaemon + [MetaRequest]) else s
    case Challenge(name, instruction, question, echo) =>
      if s.plugin.InCallback? then
        var p := PromptFor(name, instruction, question, echo);
        s.(toDaemon := s.toDaemon + [PromptRequest(p)], asked := s.asked + [p],
           plugin := if question == "" then InCallback else AwaitingAnswer(p))
      else s
    case CallbackReturns(upstream, failed) =>
      if s.plugin.InCallback? then
        s.(plugin := Returned(if failed then None else Some(upstream)),
           toDaemon := if failed then s.toDaemon else s.toDaemon + [FinishRequest(upstream)])
      else s
    case PluginReceives => DoPluginReceives(s)
    case DaemonReceives => DoDaemonReceives(s)
    case ClientAnswers(answers) =>
      // The SSH library hands over exactly one answer per question.
      if s.daemon.Prompting? && |answers| == |s.daemon.prompt.questions| then
        s.(daemon := Receiving, shown := s.shown + [(s.daemon.prompt, answers)],
           toPlugin := if s.daemon.prompt.questions == [] then s.toPlugin else s.toPlugin + [UserResponse(answers)])
      else s
    case ClientFails => if s.daemon.Prompting? then s.(daemon := Done(ClientError)) else s
  }

  function Run(s: Sys, steps: seq<Step>): Sys
    decreases |steps|
  {
    if steps == [] then s else Run(Next(s, steps[0]), steps[1..])
  }

  const START := Sys(Starting, Receiving, [], [], [], [], [])

  // ----- histories ---------------------------------------------------------

  function Questions(shown: seq<(Prompt, seq<string>)>): seq<(Prompt, seq<string>)> {
    Filter(shown, (x: (Prompt, seq<string>)) => x.0.questions != [])
  }

  function PromptsIn(msgs: seq<PluginMsg>): seq<Prompt> {
    if msgs == [] then []
    else (if msgs[0].PromptRequest? then [msgs[0].prompt] else []) + PromptsIn(msgs[1..])
  }

  function PromptsOf(shown: seq<(Prompt, seq<string>)>): (r: seq<Prompt>)
    ensures |r| == |shown|
  {
    seq(|shown|, i requires 0 <= i < |shown| => shown[i].0)
  }

  lemma {:induction false} PromptsInAppend(msgs: seq<PluginMsg>, m: PluginMsg)
    ensures PromptsIn(msgs + [m]) == PromptsIn(msgs) + (if m.PromptRequest? then [m.prompt] else [])
  {
    var all := msgs + [m];
    if msgs == [] {
      assert all[1..] == [];
    } else {
      assert all[1..] == msgs[1..] + [m];
      PromptsInAppend(msgs[1..], m);
      assert all[0] == msgs[0];
    }
  }

  // ----- the invariant -----------------------------------------------------

  /** Only prompts that ask nothing. */
  predicate Silent(msgs: seq<PluginMsg>) {
    forall i :: 0 <= i < |msgs| ==> msgs[i].PromptRequest? && msgs[i].prompt.questions == []
  }

  /** Silent prompts followed by `last`. */
  predicate EndsWith(msgs: seq<PluginMsg>, last: PluginMsg) {
    msgs != [] && msgs[|msgs| - 1] == last && Silent(msgs[..|msgs| - 1])
  }

  predicate NotAsking(d: Daemon) {
    d.Prompting? ==> d.prompt.questions == []
  }

  /** No answer is under way: every question shown has been answered to its caller. */
  predicate Settled(s: Sys) {
    s.toPlugin == [] && Questions(s.shown) == s.got
  }

  /** Where the outstanding question is: on its way to the daemon behind silent prompts,
      with the client, or answered and on its way back. */
  predicate QuestionInFlight(s: Sys, p: Prompt) {
    || (EndsWith(s.toDaemon, PromptRequest(p)) && Settled(s) && NotAsking(s.daemon))
    || (s.toDaemon == [] && s.daemon == Prompting(p) && Settled(s))
    || (s.toDaemon == [] && s.daemon.Receiving? && |s.toPlugin| == 1 && s.toPlugin[0].UserResponse?
        && |s.toPlugin[0].answers| == 1 && Questions(s.shown) == s.got + [(p, s.toPlugin[0].answers)])
  }

  /** What each point of the plugin's handler implies while the daemon still runs. */
  predicate PhaseInv(s: Sys) {
    match s.plugin
    case Starting => s.toDaemon == [] && Settled(s) && s.daemon.Receiving?
    case AwaitingMeta =>
      && s.daemon.Receiving? && Questions(s.shown) == s.got
      && ((s.toDaemon == [MetaRequest] && s.toPlugin == []) || (s.toDaemon == [] && s.toPlugin == [MetaResponse]))
    case InCallback => Silent(s.toDaemon) && Settled(s) && NotAsking(s.daemon)
    case AwaitingAnswer(p) => |p.questions| == 1 && QuestionInFlight(s, p)
    case Returned(result) =>
      && Settled(s) && NotAsking(s.daemon)
      && (if result.Some? then EndsWith(s.toDaemon, FinishRequest(result.value)) else Silent(s.toDaemon))
  }

  /** What the daemon's outcome says about the plugin. */
  predicate OutcomeInv(s: Sys, o: Outcome) {
    && !o.EndOfStream?
    && (o.Accepted? ==> s.plugin == Returned(Some(Some(o.upstream))))
    && (o.NoUpstream? ==> s.plugin == Returned(Some(None)))
    && (o.PluginError? ==> s.plugin == Returned(None))
    && (o.Accepted? || o.NoUpstream? ==> PromptsOf(s.shown) == s.asked)
  }

  /** Prompts reach the client in the order of the calls, none lost, none twice. */
  predicate OrderInv(s: Sys) {
    s.asked == PromptsOf(s.shown) + (if s.daemon.Prompting? then [s.daemon.prompt] else []) + PromptsIn(s.toDaemon)
  }

  predicate OneAnswerEach(got: seq<(Prompt, seq<string>)>) {
    forall k :: 0 <= k < |got| ==> |got[k].0.questions| == |got[k].1| == 1
  }

  predicate Inv(s: Sys) {
    && OneAnswerEach(s.got)
    && PromptsOf(s.shown) <= s.asked
    && (if s.daemon.Done? then Settled(s) && OutcomeInv(s, s.daemon.outcome) && !s.plugin.Starting? && !s.plugin.AwaitingMeta?
        else PhaseInv(s) && OrderInv(s))
  }

  // ----- every step keeps it -----------------------------------------------

  lemma QuestionsAppend(shown: seq<(Prompt, seq<string>)>, p: Prompt, a: seq<string>)
    ensures Questions(shown + [(p, a)]) == Questions(shown) + (if p.questions == [] then [] else [(p, a)])
  {
    FilterConcat(shown, [(p, a)], (x: (Prompt, seq<string>)) => x.0.questions != []);
  }

  lemma PromptsOfAppend(shown: seq<(Prompt, seq<string>)>, p: Prompt, a: seq<string>)
    ensures PromptsOf(shown + [(p, a)]) == PromptsOf(shown) + [p]
  {
  }

  lemma EndsWithTail(msgs: seq<PluginMsg>, last: PluginMsg)
    requires EndsWith(msgs, last)
    ensures if |msgs| == 1 then msgs == [last]
            else msgs[0].PromptRequest? && msgs[0].prompt.questions == [] && EndsWith(msgs[1..], last)
  {
    if |msgs| > 1 {
      assert msgs[0] == msgs[..|msgs| - 1][0];
      assert msgs[1..][..|msgs| - 2] == msgs[..|msgs| - 1][1..];
    }
  }

  lemma Appended(msgs: seq<PluginMsg>, m: PluginMsg)
    requires Silent(msgs)
    ensures EndsWith(msgs + [m], m)
    ensures m.PromptRequest? && m.prompt.questions == [] ==> Silent(msgs + [m])
    ensures PromptsIn(msgs + [m]) == PromptsIn(msgs) + (if m.PromptRequest? then [m.prompt] else [])
  {
    assert (msgs + [m])[..|msgs|] == msgs;
    PromptsInAppend(msgs, m);
  }

  lemma ChallengeKeepsInv(s: Sys, step: Step)
    requires Inv(s) && step.Challenge?
    ensures Inv(Next(s, step))
  {
    if s.plugin.InCallback? && !s.daemon.Done? {
      Appended(s.toDaemon, PromptRequest(PromptFor(step.name, step.instruction, step.question, step.echo)));
    }
  }

  lemma ReturnKeepsInv(s: Sys, step: Step)
    requires Inv(s) && step.CallbackReturns?
    ensures Inv(Next(s, step))
  {
    if s.plugin.InCallback? && !s.daemon.Done? {
      Appended(s.toDaemon, FinishRequest(step.upstream));
    }
  }

  lemma PluginReceiveKeepsInv(s: Sys)
    requires Inv(s)
    ensures Inv(DoPluginReceives(s))
  {
  }

  lemma QuestionReceived(s: Sys, p: Prompt)
    requires Inv(s) && s.daemon.Receiving? && s.toDaemon != [] && s.plugin == AwaitingAnswer(p)
    ensures Inv(DoDaemonReceives(s))
  {
    EndsWithTail(s.toDaemon, PromptRequest(p));
  }

  lemma SilentReceived(s: Sys)
    requires Inv(s) && s.daemon.Receiving? && s.toDaemon != [] && s.plugin.InCallback?
    ensures Inv(DoDaemonReceives(s))
  {
  }

  lemma FinishReceived(s: Sys)
    requires Inv(s) && s.daemon.Receiving? && s.toDaemon != [] && s.plugin.Returned?
    ensures Inv(DoDaemonReceives(s))
  {
    if s.plugin.result.Some? {
      EndsWithTail(s.toDaemon, FinishRequest(s.plugin.result.value));
      if |s.toDaemon| == 1 {
        assert s.toDaemon[1..] == [] && PromptsIn(s.toDaemon) == [];
        assert s.asked == PromptsOf(s.shown);
      }
    }
  }

  lemma DaemonReceiveKeepsInv(s: Sys)
    requires Inv(s)
    ensures Inv(DoDaemonReceives(s))
  {
    if s.daemon.Receiving? && s.toDaemon != [] {
      match s.plugin
      case AwaitingAnswer(p) => QuestionReceived(s, p);
      case Returned(_) => FinishReceived(s);
      case InCallback => SilentReceived(s);
      case AwaitingMeta => assert s.toDaemon[1..] == [];
      case Starting =>
    }
  }

  lemma ClientKeepsInv(s: Sys, answers: seq<string>)
    requires Inv(s)
    ensures Inv(Next(s, ClientAnswers(answers)))
  {
    if s.daemon.Prompting? {
      QuestionsAppend(s.shown, s.daemon.prompt, answers);
      PromptsOfAppend(s.shown, s.daemon.prompt, answers);
    }
  }

  lemma StepKeepsInv(s: Sys, step: Step)
    requires Inv(s)
    ensures Inv(Next(s, step))
  {
    match step
    case PluginReceives => PluginReceiveKeepsInv(s);
    case DaemonReceives => DaemonReceiveKeepsInv(s);
    case ClientAnswers(answers) => ClientKeepsInv(s, answers);
    case ClientFails =>
    case Begin =>
    case Challenge(_, _, _, _) => ChallengeKeepsInv(s, step);
    case CallbackReturns(_, _) => ReturnKeepsInv(s, step);
  }

  lemma {:induction false} RunKeepsInv(s: Sys, steps: seq<Step>)
    requires Inv(s)
    ensures Inv(Run(s, steps))
    decreases |steps|
  {
    if steps != [] {
      StepKeepsInv(s, steps[0]);
      RunKeepsInv(Next(s, steps[0]), steps[1..]);
    }
  }

  // ----- main results ------------------------------------------------------

  predicate PluginWaits(s: Sys) {
    s.plugin.AwaitingMeta? || s.plugin.AwaitingAnswer?
  }

  /** In every run the two loops never both wait for a message that is not coming: a
      waiting plugin has a message or the end of the stream to read, or the daemon has
      one to read, or the client is being prompted. A waiting daemon likewise, unless
      the plugin is the one at work. */
  lemma NeverBothWait(steps: seq<Step>)
    ensures var s := Run(START, steps);
            && (PluginWaits(s) && s.toPlugin == [] ==> s.daemon.Done? || s.daemon.Prompting? || s.toDaemon != [])
            && (s.daemon.Receiving? && s.toDaemon == [] ==> s.toPlugin != [] || !PluginWaits(s))
  {
    RunKeepsInv(START, steps);
  }

  /** In every run the k-th user response went to the challenge call that asked the k-th
      question put to the client, and is the client's single answer to it; prompts
      without a question got none; prompts reached the client in call order. */
  lemma AnswersReachTheirQuestions(steps: seq<Step>)
    ensures var s := Run(START, steps);
            && s.got <= Questions(s.shown)
            && |Questions(s.shown)| <= |s.got| + (if s.plugin.AwaitingAnswer? then 1 else 0)
            && OneAnswerEach(s.got)
            && PromptsOf(s.shown) <= s.asked
  {
    RunKeepsInv(START, steps);
  }

  /** In every run the daemon accepts an upstream only if the callback returned exactly
      that one, after every prompt of the callback was put to the client, and it never
      returns without upstream and without error. */
  lemma OutcomeIsTheCallbacks(steps: seq<Step>)
    ensures var s := Run(START, steps);
            s.daemon.Done? ==>
              && s.daemon.outcome != EndOfStream
              && (s.daemon.outcome.Accepted? ==>
                    s.plugin == Returned(Some(Some(s.daemon.outcome.upstream))) && PromptsOf(s.shown) == s.asked)
              && (s.daemon.outcome.PluginError? ==> s.plugin == Returned(None))
  {
    RunKeepsInv(START, steps);
  }

  /** The daemon's loop that splits a prompt's questions into texts and echo flags. */
  method SplitQuestions(qs: seq<(string, bool)>) returns (questions: seq<string>, echo: seq<bool>)
    ensures |questions| == |echo| == |qs|
    ensures forall i :: 0 <= i < |qs| ==> qs[i] == (questions[i], echo[i])
  {
    questions, echo := [], [];
    for k := 0 to |qs|
      invariant |questions| == |echo| == k
      invariant forall i :: 0 <= i < k ==> qs[i] == (questions[i], echo[i])
    {
      questions, echo := questions + [qs[k].0], echo + [qs[k].1];
    }
  }
}
