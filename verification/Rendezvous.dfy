/** The fetch of proxy/httpCachingProxy.go, in which a spawned goroutine answers its caller over two
    unbuffered channels. It refines the sequential fetch. */
module Rendezvous {
  import opened Basics
  import opened Objects
  import opened Fetch

  /** The spawned goroutine. */
  datatype Fetcher =
    | Dialling
    | Writing
    | Reading
    | Examining(reply: Reply)
    | SendingError(error: string)
    | SendingNil(ready: Object)
    | SendingObject(sent: Object)
    | Leaving
    | Gone

  /** The calling goroutine: between its two receives it runs on its own. */
  datatype Caller =
    | Spawned
    | AwaitingError
    | SawNil
    | AwaitingObject
    | Returned(result: Fetched)

  /** errors and objects are what went over the two channels. */
  datatype State = State(fetcher: Fetcher, caller: Caller, connected: bool, errors: seq<Option<string>>, objects: seq<Object>)

  const START := State(Dialling, Spawned, false, [], [])

  datatype Turn = OfFetcher | OfCaller | Meeting

  /** A step of the goroutine that needs nobody else. */
  function FetcherStep(key: string, net: Network, s: State): Option<State> {
    match s.fetcher
    case Dialling =>
      if net.dial.Some? then Some(s.(fetcher := SendingError("failed to connect to target: " + net.dial.value)))
      else Some(s.(fetcher := Writing, connected := true))
    case Writing =>
      if net.write.Some? then Some(s.(fetcher := SendingError("failed to send request to target: " + net.write.value)))
      else Some(s.(fetcher := Reading))
    case Reading =>
      (match net.reply
       case Err(e) => Some(s.(fetcher := SendingError("failed to read response from target: " + e)))
       case Ok(reply) => Some(s.(fetcher := Examining(reply))))
    case Examining(reply) =>
      if reply.status != STATUS_OK then
        (match reply.body
         case Err(_) => Some(s.(fetcher := SendingError("could not read non-OK response body")))
         case Ok(b) =>
           Some(s.(fetcher := SendingError("received non-OK HTTP status: " + reply.statusLine + " : " + AsText(b)))))
      else
        (match reply.body
         case Err(e) => Some(s.(fetcher := SendingError(e)))
         case Ok(b) => Some(s.(fetcher := SendingNil(Object(key, Some(b), reply.headers)))))
    case Leaving => Some(s.(fetcher := Gone, connected := false))
    case _ => None
  }

  function CallerStep(s: State): Option<State> {
    match s.caller
    case Spawned => Some(s.(caller := AwaitingError))
    case SawNil => Some(s.(caller := AwaitingObject))
    case _ => None
  }

  /** A value crosses an unbuffered channel when both sides are there. */
  function Meet(s: State): Option<State> {
    match (s.fetcher, s.caller)
    case (SendingError(e), AwaitingError) =>
      Some(s.(fetcher := Leaving, caller := Returned(Err(PREFIX + e)), errors := s.errors + [Some(e)]))
    case (SendingNil(o), AwaitingError) =>
      Some(s.(fetcher := SendingObject(o), caller := SawNil, errors := s.errors + [None]))
    case (SendingObject(o), AwaitingObject) =>
      Some(s.(fetcher := Leaving, caller := Returned(Ok(o)), objects := s.objects + [o]))
    case _ => None
  }

  function Step(key: string, net: Network, s: State, turn: Turn): Option<State> {
    match turn
    case OfFetcher => FetcherStep(key, net, s)
    case OfCaller => CallerStep(s)
    case Meeting => Meet(s)
  }

  /** None when some turn was not possible. */
  function Run(key: string, net: Network, s: State, turns: seq<Turn>): Option<State>
    decreases |turns|
  {
    if turns == [] then Some(s)
    else
      match Step(key, net, s, turns[0])
      case None => None
      case Some(s') => Run(key, net, s', turns[1..])
  }

  // ----- the rendezvous refines the sequential form -----

  /** Everything one goroutine can rely on about the other. */
  ghost predicate Inv(key: string, net: Network, s: State) {
    var r := FetchedObject(key, net);
    && (s.fetcher.Writing? || s.fetcher.Reading? || s.fetcher.Examining? ==> s.connected)
    && (s.fetcher.SendingNil? || s.fetcher.SendingObject? ==> s.connected)
    && (s.fetcher.Dialling? || s.fetcher.Gone? ==> !s.connected)
    && (s.fetcher.Writing? || s.fetcher.Reading? || s.fetcher.Examining? ==> net.dial.None?)
    && (s.fetcher.Reading? || s.fetcher.Examining? ==> net.write.None?)
    && (s.fetcher.Examining? ==> net.reply == Ok(s.fetcher.reply))
    && (s.fetcher.SendingError? ==> r == Err(s.fetcher.error))
    && (s.fetcher.SendingNil? ==> r == Ok(s.fetcher.ready))
    && (s.fetcher.SendingObject? ==> r == Ok(s.fetcher.sent))
    && match s.fetcher
       case Leaving => Ended(r, s)
       case Gone => Ended(r, s)
       case SendingObject(_) => (s.caller.SawNil? || s.caller.AwaitingObject?) && s.errors == [None] && s.objects == []
       case _ => (s.caller.Spawned? || s.caller.AwaitingError?) && s.errors == [] && s.objects == []
  }

  /** One value went over the error channel, and one over the object channel exactly when that
      value was nil; the caller returned what the sequential form returns. */
  ghost predicate Ended(r: Fetched, s: State) {
    && s.caller == Returned(Prefixed(r))
    && s.errors == [if r.Ok? then None else Some(r.error)]
    && s.objects == (if r.Ok? then [r.value] else [])
  }

  ghost predicate Final(s: State) {
    s.fetcher.Gone? && s.caller.Returned?
  }

  /** No run is longer than this many more steps. */
  function Rank(s: State): nat {
    (match s.fetcher
     case Dialling => 7
     case Writing => 6
     case Reading => 5
     case Examining(_) => 4
     case SendingError(_) => 2
     case SendingNil(_) => 3
     case SendingObject(_) => 2
     case Leaving => 1
     case Gone => 0)
    + (match s.caller
       case Spawned => 2
       case AwaitingError => 1
       case SawNil => 1
       case AwaitingObject => 0
       case Returned(_) => 0)
  }

  lemma FetcherKeeps(key: string, net: Network, s: State)
    requires Inv(key, net, s) && FetcherStep(key, net, s).Some?
    ensures Inv(key, net, FetcherStep(key, net, s).value)
    ensures Rank(FetcherStep(key, net, s).value) < Rank(s)
  {
  }

  lemma CallerKeeps(key: string, net: Network, s: State)
    requires Inv(key, net, s) && CallerStep(s).Some?
    ensures Inv(key, net, CallerStep(s).value)
    ensures Rank(CallerStep(s).value) < Rank(s)
  {
  }

  lemma MeetKeeps(key: string, net: Network, s: State)
    requires Inv(key, net, s) && Meet(s).Some?
    ensures Inv(key, net, Meet(s).value)
    ensures Rank(Meet(s).value) < Rank(s)
  {
  }

  lemma StepKeeps(key: string, net: Network, s: State, turn: Turn)
    requires Inv(key, net, s) && Step(key, net, s, turn).Some?
    ensures Inv(key, net, Step(key, net, s, turn).value)
    ensures Rank(Step(key, net, s, turn).value) < Rank(s)
  {
    match turn
    case OfFetcher => FetcherKeeps(key, net, s);
    case OfCaller => CallerKeeps(key, net, s);
    case Meeting => MeetKeeps(key, net, s);
  }

  /** Some turn is possible exactly until both goroutines are done. */
  lemma NoDeadlock(key: string, net: Network, s: State)
    requires Inv(key, net, s)
    ensures Final(s) <==> forall turn :: Step(key, net, s, turn).None?
  {
    if !Final(s) {
      var turn := if FetcherStep(key, net, s).Some? then OfFetcher else if CallerStep(s).Some? then OfCaller else Meeting;
      assert Step(key, net, s, turn).Some?;
    }
  }

  /** Every run, however the goroutines interleave, has at most nine steps and gets stuck only when
      both goroutines are done; then the caller holds the result of the sequential form with its
      error prefix, one value crossed the error channel, an object crossed exactly when that value
      was nil, and the connection is closed. */
  lemma {:induction false} EveryRun(key: string, net: Network, turns: seq<Turn>)
    requires Run(key, net, START, turns).Some?
    ensures var s := Run(key, net, START, turns).value;
            && |turns| + Rank(s) <= 9
            && (Final(s) <==> forall turn :: Step(key, net, s, turn).None?)
            && (Final(s) ==> Ended(FetchedObject(key, net), s) && !s.connected)
            && (s.caller.Returned? ==> s.caller.result == Prefixed(FetchedObject(key, net)))
  {
    RunKeeps(key, net, START, turns);
    NoDeadlock(key, net, Run(key, net, START, turns).value);
  }

  lemma {:induction false} RunKeeps(key: string, net: Network, s: State, turns: seq<Turn>)
    requires Inv(key, net, s) && Run(key, net, s, turns).Some?
    ensures Inv(key, net, Run(key, net, s, turns).value)
    ensures |turns| + Rank(Run(key, net, s, turns).value) <= Rank(s)
    decreases |turns|
  {
    if turns != [] {
      StepKeeps(key, net, s, turns[0]);
      RunKeeps(key, net, Step(key, net, s, turns[0]).value, turns[1..]);
    }
  }

  /** From every point of every run the rest of the run can be completed. */
  lemma {:induction false} Completes(key: string, net: Network, s: State) returns (turns: seq<Turn>)
    requires Inv(key, net, s)
    ensures Run(key, net, s, turns).Some? && Final(Run(key, net, s, turns).value)
    decreases Rank(s)
  {
    if Final(s) {
      turns := [];
    } else {
      NoDeadlock(key, net, s);
      var turn :| Step(key, net, s, turn).Some?;
      StepKeeps(key, net, s, turn);
      var rest := Completes(key, net, Step(key, net, s, turn).value);
      turns := [turn] + rest;
      assert turns[1..] == rest;
    }
  }
}
