/**
 The conversation's state table: which handler an update reaches in each
 state, the state each handler returns, and the state the conversation is in
 afterwards. A conversation belongs to one user in one chat. "No state" means that
 user has no conversation there: before the start command and after
 the conversation has ended.
 */
module Conversation {
  import opened Wrappers

  /** STEP1, STEP2, STEP3; STEP1 is declared but no handler ever returns it. */
  datatype Step = Step1 | Step2 | Step3

  /** What a handler returns: a state, the end of the conversation, or nothing. */
  datatype Reply = ToState(step: Step) | EndConversation | NoState

  /** The inbound updates the conversation reacts to. */
  datatype Event = StartCommand | CancelCommand | Callback(data: string)

  /** The four handlers registered with the conversation. */
  datatype Handler = OnStart | OnStep2 | OnStep3 | OnCancel

  /**
   The handler table: the /start entry point while idle; while active, the
   callback handler of the current state, else the /cancel fallback.
   */
  function Dispatch(state: Option<Step>, ev: Event): (h: Option<Handler>)
    ensures state == None ==> (h.Some? <==> ev.StartCommand?)
    ensures h == Some(OnStart) <==> state == None && ev.StartCommand?
    ensures state != None ==> (ev.CancelCommand? <==> h == Some(OnCancel))
    ensures h == Some(OnStep2) <==> state == Some(Step2) && ev.Callback?
    ensures h == Some(OnStep3) <==> state == Some(Step3) && ev.Callback?
  {
    match state
    case None => if ev.StartCommand? then Some(OnStart) else None
    case Some(s) =>
      match ev
      case Callback(_) =>
        if s == Step2 then Some(OnStep2) else if s == Step3 then Some(OnStep3) else None
      case CancelCommand => Some(OnCancel)
      case StartCommand => None
  }

  /** The value each handler returns; `data` is the callback data (ignored by commands). */
  function Returns(h: Handler, data: string): (r: Reply)
    ensures h == OnStart ==> r == ToState(Step2)
    ensures h == OnStep2 ==> (r == ToState(Step3) <==> data == "yes") && (r == NoState <==> data != "yes")
    ensures h == OnStep3 || h == OnCancel ==> r == EndConversation
  {
    match h
    case OnStart => ToState(Step2)
    case OnStep2 => if data == "yes" then ToState(Step3) else NoState
    case OnStep3 => EndConversation
    case OnCancel => EndConversation
  }

  /** The state after a handler replied: a returned state is entered, END goes idle, nothing keeps the state. */
  function After(state: Option<Step>, r: Reply): Option<Step>
  {
    match r
    case ToState(s) => Some(s)
    case EndConversation => None
    case NoState => state
  }

  /** The data a callback carries; commands carry none. */
  function DataOf(ev: Event): string
  {
    if ev.Callback? then ev.data else ""
  }

  /** One update: an update no handler takes leaves the state as it is. */
  function Advance(state: Option<Step>, ev: Event): (next: Option<Step>)
    ensures Dispatch(state, ev) == None ==> next == state
    ensures state != None && ev.CancelCommand? ==> next == None
    ensures next == Some(Step1) ==> state == Some(Step1)
  {
    match Dispatch(state, ev)
    case None => state
    case Some(h) => After(state, Returns(h, DataOf(ev)))
  }

  /** A sequence of updates, in delivery order. */
  function Run(state: Option<Step>, evs: seq<Event>): Option<Step>
    decreases |evs|
  {
    if evs == [] then state else Run(Advance(state, evs[0]), evs[1..])
  }

  /** /cancel ends the conversation from every active state and is ignored while idle. */
  lemma CancelFromAnyState(state: Option<Step>)
    ensures state != None ==> Dispatch(state, CancelCommand) == Some(OnCancel) && Advance(state, CancelCommand) == None
    ensures state == None ==> Advance(state, CancelCommand) == None
  {
  }

  /** In STEP2 only the "yes" callback moves on to STEP3; any other data keeps the conversation in STEP2. */
  lemma OnlyYesAdvances(data: string)
    ensures Advance(Some(Step2), Callback(data)) == if data == "yes" then Some(Step3) else Some(Step2)
  {
  }

  /** A conversation ends only through the STEP3 handler or /cancel. */
  lemma EndsOnlyByStep3OrCancel(s: Step, ev: Event)
    requires Advance(Some(s), ev) == None
    ensures ev == CancelCommand || (s == Step3 && ev.Callback?)
  {
  }

  /** /start opens a conversation only while idle; during one it is not handled. */
  lemma StartOnlyWhenIdle(state: Option<Step>)
    ensures Advance(state, StartCommand) == if state == None then Some(Step2) else state
  {
  }

  /** The full flow: /start, "yes", then any unit ends the conversation after passing STEP2 and STEP3. */
  lemma HappyPath(unit: string)
    ensures Run(None, [StartCommand]) == Some(Step2)
    ensures Run(None, [StartCommand, Callback("yes")]) == Some(Step3)
    ensures Run(None, [StartCommand, Callback("yes"), Callback(unit)]) == None
  {
    assert [StartCommand, Callback("yes"), Callback(unit)][1..] == [Callback("yes"), Callback(unit)];
    assert [Callback("yes"), Callback(unit)][1..] == [Callback(unit)];
    assert [Callback(unit)][1..] == [];
    assert Run(Some(Step3), [Callback(unit)]) == Run(None, []);
    assert [StartCommand, Callback("yes")][1..] == [Callback("yes")];
  }

  /** STEP1 is never entered: no sequence of updates from a state other than STEP1 reaches it. */
  lemma {:induction false} Step1Unreachable(state: Option<Step>, evs: seq<Event>)
    requires state != Some(Step1)
    ensures Run(state, evs) != Some(Step1)
    decreases |evs|
  {
    if evs != [] {
      var next := Advance(state, evs[0]);
      assert next != Some(Step1);
      Step1Unreachable(next, evs[1..]);
    }
  }
}
