/**
 * The token-update flow of the quest page (pages/quests/index.tsx).
 *
 * Three pieces of component state drive it: the token id to update, the
 * metadata URI to write, and a tri-state "write launched" flag. Two events
 * change them: the metadata wrapper completing (after the generator and the
 * token-id read have answered), and the write effect running. The effect
 * issues at most one writer call, guarded by the flag, which it raises
 * before the call and which only a later non-error wrapper run lowers.
 *
 * The generator, the writer and the token-id read are asynchronous
 * collaborators; their answers are inputs here. React may run the effect
 * at any time, any number of times: each run is an event of its own.
 */
module QuestPage {
  import opened Options

  /** `useState<boolean>()`: `undefined` until first set. */
  datatype TxFlag = Undefined | Defined(value: bool)

  /** The component state the flow reads and writes. */
  datatype PageState = PageState(tokenId: nat, finalTokenUri: string, updateTxLaunched: TxFlag)

  /** The state at first render: id 0, empty URI, flag undefined. */
  const Initial := PageState(0, "", Undefined)

  /**
   * What the wrapper sees: whether an account address and the current token
   * JSON are present, the generator's returned string (used only when both
   * are), and the on-chain token id (`None` when the read has not answered).
   */
  datatype WrapperInput = WrapperInput(
    hasAddress: bool,
    hasTokenJson: bool,
    generated: string,
    tokenIdOf: Option<nat>)

  /** How one wrapper run ends. */
  datatype WrapperOutcome =
    | NotReady                          // returned before calling the generator
    | GenerationFailed(message: string) // error notification titled with the generator's text
    | UnresolvedTokenId                 // flag lowered, nothing recorded
    | Recorded                          // token id and URI recorded

  datatype WrapperResult = WrapperResult(state: PageState, outcome: WrapperOutcome)

  /** The notification shown for the writer's answer. */
  datatype Notice = SuccessNotice | RejectedNotice | ErrorNotice | NoNotice

  /** One `updateToken` call: the token id and URI it writes. */
  datatype WriteCall = WriteCall(tokenId: nat, uri: string)

  datatype EffectOutcome = Skipped | Wrote(call: WriteCall, notice: Notice)

  datatype EffectResult = EffectResult(state: PageState, outcome: EffectOutcome)

  /**
   * JavaScript's `s.indexOf(pat)`: the first position at which `pat`
   * occurs in `s`, or -1 when it occurs nowhere.
   */
  function IndexOf(s: string, pat: string): (r: int)
    ensures -1 <= r <= |s|
    ensures r >= 0 ==> pat <= s[r..]
    ensures r >= 0 ==> forall k :: 0 <= k < r ==> !(pat <= s[k..])
    ensures r == -1 ==> forall k :: 0 <= k <= |s| ==> !(pat <= s[k..])
    decreases |s|
  {
    if pat <= s then 0
    else if s == [] then -1
    else
      var k := IndexOf(s[1..], pat);
      assert s[0..] == s;
      assert forall j :: 1 <= j <= |s| ==> s[j..] == s[1..][j - 1..];
      if k < 0 then -1 else k + 1
  }

  /**
   * The generator signals failure by a result beginning with "Error"; an
   * occurrence anywhere else does not count.
   */
  predicate IsGeneratorError(generated: string)
    ensures IsGeneratorError(generated) <==> "Error" <= generated
  {
    assert generated[0..] == generated;
    IndexOf(generated, "Error") == 0
  }

  /** The wrapper gets past its guards and lowers the flag. */
  predicate ClearsFlag(input: WrapperInput)
  {
    input.hasAddress && input.hasTokenJson && !IsGeneratorError(input.generated)
  }

  /** `tokenIdOf ? tokenIdOf : 0`. */
  function ResolvedTokenId(input: WrapperInput): (id: nat)
    ensures input.tokenIdOf.Some? ==> id == input.tokenIdOf.value
    ensures id == 0 <==> input.tokenIdOf == None || input.tokenIdOf == Some(0)
  {
    if input.tokenIdOf.Some? then input.tokenIdOf.value else 0
  }

  /** One run of `updateTokenMetadataWrapper`, from its guards to its last assignment. */
  function Wrapper(s: PageState, input: WrapperInput): (r: WrapperResult)
    // the generator is consulted only with an address and token JSON
    ensures r.outcome == NotReady <==> !(input.hasAddress && input.hasTokenJson)
    // a result beginning with "Error" is reported with its own text
    ensures r.outcome.GenerationFailed? <==> input.hasAddress && input.hasTokenJson && "Error" <= input.generated
    ensures r.outcome.GenerationFailed? ==> r.outcome.message == input.generated
    // only a run past both guards changes anything, and it always lowers the flag
    ensures !ClearsFlag(input) ==> r.state == s
    ensures ClearsFlag(input) ==> r.state.updateTxLaunched == Defined(false)
    // the id and URI are recorded together, only for a non-zero id
    ensures r.outcome == Recorded <==> ClearsFlag(input) && ResolvedTokenId(input) != 0
    ensures r.outcome == Recorded ==> r.state.tokenId == ResolvedTokenId(input) && r.state.finalTokenUri == input.generated
    ensures r.outcome != Recorded ==> r.state.tokenId == s.tokenId && r.state.finalTokenUri == s.finalTokenUri
  {
    if !input.hasAddress || !input.hasTokenJson then WrapperResult(s, NotReady)
    else if IsGeneratorError(input.generated) then WrapperResult(s, GenerationFailed(input.generated))
    else
      var lowered := s.(updateTxLaunched := Defined(false));
      var id := ResolvedTokenId(input);
      if id == 0 then WrapperResult(lowered, UnresolvedTokenId)
      else WrapperResult(lowered.(tokenId := id, finalTokenUri := input.generated), Recorded)
  }

  /** The notification for the writer's answer; an unknown answer shows none. */
  function NoticeFor(writerResult: string): (n: Notice)
    ensures n == SuccessNotice <==> writerResult == "success"
    ensures n == RejectedNotice <==> writerResult == "rejected"
    ensures n == ErrorNotice <==> writerResult == "error"
  {
    if writerResult == "success" then SuccessNotice
    else if writerResult == "rejected" then RejectedNotice
    else if writerResult == "error" then ErrorNotice
    else NoNotice
  }

  /** The effect's guard: a URI to write, and no write launched since the flag was last lowered. */
  predicate MayWrite(s: PageState)
    ensures MayWrite(s) ==> s.finalTokenUri != ""
    ensures s.updateTxLaunched == Defined(true) ==> !MayWrite(s)
    // an undefined flag, like a false one, permits the write
    ensures s.updateTxLaunched != Defined(true) ==> (MayWrite(s) <==> s.finalTokenUri != "")
  {
    s.finalTokenUri != "" && s.updateTxLaunched != Defined(true)
  }

  /** One run of the write effect, with `writerResult` the answer of the call it issues. */
  function Effect(s: PageState, writerResult: string): (r: EffectResult)
    ensures r.outcome.Wrote? <==> MayWrite(s)
    ensures r.outcome.Wrote? ==> r.outcome.call == WriteCall(s.tokenId, s.finalTokenUri)
    ensures r.outcome.Wrote? ==> r.outcome.notice == NoticeFor(writerResult)
    // the flag is raised by a write, never lowered, and nothing else changes
    ensures r.outcome.Wrote? ==> r.state.updateTxLaunched == Defined(true)
    ensures r.outcome.Skipped? ==> r.state == s
    ensures r.state.tokenId == s.tokenId && r.state.finalTokenUri == s.finalTokenUri
  {
    if !MayWrite(s) then EffectResult(s, Skipped)
    else
      EffectResult(s.(updateTxLaunched := Defined(true)),
                   Wrote(WriteCall(s.tokenId, s.finalTokenUri), NoticeFor(writerResult)))
  }

  /** An event the environment delivers to the page. */
  datatype Event =
    | WrapperCompletes(input: WrapperInput)
    | EffectRuns(writerResult: string)

  /** The state after a sequence of events, and the writer calls issued on the way. */
  datatype Replay = Replay(state: PageState, writes: seq<WriteCall>)

  function Step(before: Replay, e: Event): Replay
  {
    match e
    case WrapperCompletes(input) => Replay(Wrapper(before.state, input).state, before.writes)
    case EffectRuns(writerResult) =>
      var r := Effect(before.state, writerResult);
      Replay(r.state, if r.outcome.Wrote? then before.writes + [r.outcome.call] else before.writes)
  }

  /** Replays `events` in order from `s`. */
  function Run(s: PageState, events: seq<Event>): Replay
    decreases |events|
  {
    if events == [] then Replay(s, [])
    else Step(Run(s, events[..|events| - 1]), events[|events| - 1])
  }

  /** The number of wrapper runs that get past both guards and lower the flag. */
  function Successes(events: seq<Event>): nat
    decreases |events|
  {
    if events == [] then 0
    else
      var last := events[|events| - 1];
      Successes(events[..|events| - 1]) + if last.WrapperCompletes? && ClearsFlag(last.input) then 1 else 0
  }

  /**
   * The page component's state, updated in place by the wrapper and the
   * effect. The ghost fields record the events delivered so far and the
   * writer calls issued, which `Valid` ties to a replay from the initial
   * state.
   */
  class QuestFlow {
    var tokenId: nat
    var finalTokenUri: string
    var updateTxLaunched: TxFlag

    ghost var events: seq<Event>
    ghost var writes: seq<WriteCall>

    function State(): PageState
      reads this
    {
      PageState(tokenId, finalTokenUri, updateTxLaunched)
    }

    ghost predicate Valid()
      reads this
    {
      Run(Initial, events) == Replay(State(), writes)
    }

    constructor ()
      ensures Valid() && State() == Initial
      ensures events == [] && writes == []
    {
      tokenId := 0;
      finalTokenUri := "";
      updateTxLaunched := Undefined;
      events := [];
      writes := [];
    }

    /** `updateTokenMetadataWrapper`, resumed with its collaborators' answers. */
    method UpdateTokenMetadataWrapper(input: WrapperInput) returns (outcome: WrapperOutcome)
      requires Valid()
      modifies this
      ensures Valid()
      ensures WrapperResult(State(), outcome) == Wrapper(old(State()), input)
      ensures events == old(events) + [WrapperCompletes(input)] && writes == old(writes)
    {
      events := events + [WrapperCompletes(input)];
      assert events[..|events| - 1] == old(events);
      if !input.hasAddress || !input.hasTokenJson {
        return NotReady;
      }
      var ret := input.generated;
      if IndexOf(ret, "Error") == 0 {
        return GenerationFailed(ret);
      }
      updateTxLaunched := Defined(false);
      var theTokenId := if input.tokenIdOf.Some? then input.tokenIdOf.value else 0;
      if theTokenId == 0 {
        return UnresolvedTokenId;
      }
      tokenId := theTokenId;
      finalTokenUri := ret;
      return Recorded;
    }

    /**
     * One run of the write effect; `writerResult` is what `updateToken`
     * answers if it is called. Every writer call ever issued is accounted
     * for by an earlier wrapper run that lowered the flag.
     */
    method WriteEffect(writerResult: string) returns (outcome: EffectOutcome)
      requires Valid()
      modifies this
      ensures Valid()
      ensures EffectResult(State(), outcome) == Effect(old(State()), writerResult)
      ensures events == old(events) + [EffectRuns(writerResult)]
      ensures writes == old(writes) + if outcome.Wrote? then [outcome.call] else []
      ensures |writes| <= Successes(events)
    {
      events := events + [EffectRuns(writerResult)];
      assert events[..|events| - 1] == old(events);
      if finalTokenUri == "" || updateTxLaunched == Defined(true) {
        outcome := Skipped;
      } else {
        updateTxLaunched := Defined(true);
        var call := WriteCall(tokenId, finalTokenUri);
        var notice;
        if writerResult == "success" {
          notice := SuccessNotice;
        } else if writerResult == "rejected" {
          notice := RejectedNotice;
        } else if writerResult == "error" {
          notice := ErrorNotice;
        } else {
          notice := NoNotice;
        }
        outcome := Wrote(call, notice);
        writes := writes + [call];
      }
      WritesBoundedFromInitial(events);
    }
  }

  // ---------------------------------------------------------------------
  // Properties of runs
  // ---------------------------------------------------------------------

  function Pending(s: PageState): nat
  {
    if MayWrite(s) then 1 else 0
  }

  /**
   * Every writer call is paid for by a wrapper run that lowered the flag,
   * except possibly one the starting state already permitted.
   */
  lemma {:induction false} WritesBoundedBySuccesses(s: PageState, events: seq<Event>)
    ensures |Run(s, events).writes| + Pending(Run(s, events).state) <= Successes(events) + Pending(s)
    decreases |events|
  {
    if events != [] {
      WritesBoundedBySuccesses(s, events[..|events| - 1]);
    }
  }

  /** From the first render, there are never more writes than flag-lowering wrapper runs. */
  lemma WritesBoundedFromInitial(events: seq<Event>)
    ensures |Run(Initial, events).writes| <= Successes(events)
  {
    WritesBoundedBySuccesses(Initial, events);
  }

  /**
   * Between two wrapper successes, any number of effect runs (and of
   * wrapper runs that stop at a guard) issue at most one writer call, and
   * none if a write was already launched.
   */
  lemma SingleFlight(s: PageState, events: seq<Event>)
    requires Successes(events) == 0
    ensures |Run(s, events).writes| <= 1
    ensures s.updateTxLaunched == Defined(true) ==> Run(s, events).writes == []
  {
    WritesBoundedBySuccesses(s, events);
  }

  /** Some wrapper run among `events` recorded exactly this id and URI. */
  ghost predicate RecordedBy(events: seq<Event>, tokenId: nat, uri: string)
  {
    exists i :: 0 <= i < |events| && events[i].WrapperCompletes?
      && ClearsFlag(events[i].input)
      && events[i].input.generated == uri
      && events[i].input.tokenIdOf == Some(tokenId)
      && tokenId != 0
  }

  ghost predicate RecordedWrites(events: seq<Event>, r: Replay)
  {
    && (r.state.finalTokenUri != "" ==> RecordedBy(events, r.state.tokenId, r.state.finalTokenUri))
    && forall j :: 0 <= j < |r.writes| ==>
         r.writes[j].uri != "" && RecordedBy(events, r.writes[j].tokenId, r.writes[j].uri)
  }

  lemma RecordedByGrows(events: seq<Event>, e: Event, tokenId: nat, uri: string)
    requires RecordedBy(events, tokenId, uri)
    ensures RecordedBy(events + [e], tokenId, uri)
  {
    var i :| 0 <= i < |events| && events[i].WrapperCompletes?
      && ClearsFlag(events[i].input)
      && events[i].input.generated == uri
      && events[i].input.tokenIdOf == Some(tokenId)
      && tokenId != 0;
    assert (events + [e])[i] == events[i];
  }

  /**
   * From the first render, every writer call writes a non-empty URI to a
   * non-zero token id, both recorded together by one earlier wrapper run
   * from the generator's string and the token-id read.
   */
  lemma {:induction false} WritesComeFromRecordedRuns(events: seq<Event>)
    ensures RecordedWrites(events, Run(Initial, events))
    decreases |events|
  {
    if events != [] {
      var prefix := events[..|events| - 1];
      var e := events[|events| - 1];
      assert events == prefix + [e];
      WritesComeFromRecordedRuns(prefix);
      var before := Run(Initial, prefix);
      var after := Run(Initial, events);
      forall j | 0 <= j < |before.writes|
        ensures RecordedBy(events, before.writes[j].tokenId, before.writes[j].uri)
      {
        RecordedByGrows(prefix, e, before.writes[j].tokenId, before.writes[j].uri);
      }
      if before.state.finalTokenUri != "" {
        RecordedByGrows(prefix, e, before.state.tokenId, before.state.finalTokenUri);
      }
      match e
      case WrapperCompletes(input) =>
        if Wrapper(before.state, input).outcome == Recorded {
          assert events[|events| - 1] == e;
        }
      case EffectRuns(_) =>
    }
  }
}

/** Worked runs of the flow from the first render. */
module QuestPageScenarios {
  import opened Options
  import opened QuestPage

  /** Only "Error" at position 0 is a failure: a later occurrence is a URI like any other. */
  lemma ErrorOnlyAtStart()
    ensures IsGeneratorError("Error: rate limited")
    ensures !IsGeneratorError("xError")
    ensures !IsGeneratorError("")
  {
    assert "xError"[0] != "Error"[0];
  }

  lemma RunSnoc(s: PageState, events: seq<Event>, e: Event)
    ensures Run(s, events + [e]) == Step(Run(s, events), e)
  {
    assert (events + [e])[..|events|] == events;
  }

  /**
   * A wrapper success with a non-empty URI and a resolved id, followed by
   * three effect runs, writes exactly once, with that id and URI.
   */
  lemma OneSuccessOneWrite(input: WrapperInput, w1: string, w2: string, w3: string)
    requires ClearsFlag(input) && input.tokenIdOf.Some? && input.tokenIdOf.value != 0
    requires input.generated != ""
    ensures Run(Initial, [WrapperCompletes(input), EffectRuns(w1), EffectRuns(w2), EffectRuns(w3)]).writes
         == [WriteCall(input.tokenIdOf.value, input.generated)]
  {
    var e0 := WrapperCompletes(input);
    var call := WriteCall(input.tokenIdOf.value, input.generated);
    var recorded := PageState(input.tokenIdOf.value, input.generated, Defined(false));
    var launched := recorded.(updateTxLaunched := Defined(true));
    RunSnoc(Initial, [], e0);
    assert [] + [e0] == [e0];
    assert Run(Initial, [e0]) == Replay(recorded, []);
    RunSnoc(Initial, [e0], EffectRuns(w1));
    assert Run(Initial, [e0, EffectRuns(w1)]) == Replay(launched, [call]);
    RunSnoc(Initial, [e0, EffectRuns(w1)], EffectRuns(w2));
    assert [e0, EffectRuns(w1)] + [EffectRuns(w2)] == [e0, EffectRuns(w1), EffectRuns(w2)];
    assert Run(Initial, [e0, EffectRuns(w1), EffectRuns(w2)]) == Replay(launched, [call]);
    RunSnoc(Initial, [e0, EffectRuns(w1), EffectRuns(w2)], EffectRuns(w3));
    assert [e0, EffectRuns(w1), EffectRuns(w2)] + [EffectRuns(w3)]
        == [e0, EffectRuns(w1), EffectRuns(w2), EffectRuns(w3)];
  }

  /**
   * A wrapper run whose token id is unresolved still lowers the flag, while
   * the previous URI stays recorded: a later effect run writes that
   * previous id and URI again.
   */
  lemma ZeroIdAbortRearmsPreviousWrite(first: WrapperInput, second: WrapperInput, w1: string, w2: string)
    requires ClearsFlag(first) && first.tokenIdOf.Some? && first.tokenIdOf.value != 0
    requires first.generated != ""
    requires ClearsFlag(second) && second.tokenIdOf.None?
    ensures Run(Initial, [WrapperCompletes(first), EffectRuns(w1), WrapperCompletes(second), EffectRuns(w2)]).writes
         == [WriteCall(first.tokenIdOf.value, first.generated), WriteCall(first.tokenIdOf.value, first.generated)]
  {
    var e0 := WrapperCompletes(first);
    var e2 := WrapperCompletes(second);
    var call := WriteCall(first.tokenIdOf.value, first.generated);
    var recorded := PageState(first.tokenIdOf.value, first.generated, Defined(false));
    var launched := recorded.(updateTxLaunched := Defined(true));
    RunSnoc(Initial, [], e0);
    assert [] + [e0] == [e0];
    assert Run(Initial, [e0]) == Replay(recorded, []);
    RunSnoc(Initial, [e0], EffectRuns(w1));
    assert Run(Initial, [e0, EffectRuns(w1)]) == Replay(launched, [call]);
    RunSnoc(Initial, [e0, EffectRuns(w1)], e2);
    assert [e0, EffectRuns(w1)] + [e2] == [e0, EffectRuns(w1), e2];
    assert Run(Initial, [e0, EffectRuns(w1), e2]) == Replay(recorded, [call]);
    RunSnoc(Initial, [e0, EffectRuns(w1), e2], EffectRuns(w2));
    assert [e0, EffectRuns(w1), e2] + [EffectRuns(w2)] == [e0, EffectRuns(w1), e2, EffectRuns(w2)];
  }

  /** A generator error leaves the page exactly as it was, so no effect run can write. */
  lemma GenerationErrorWritesNothing(w: string)
    ensures Run(Initial, [WrapperCompletes(WrapperInput(true, true, "Error: rate limited", Some(7))),
                          EffectRuns(w)])
         == Replay(Initial, [])
  {
    var e0 := WrapperCompletes(WrapperInput(true, true, "Error: rate limited", Some(7)));
    RunSnoc(Initial, [], e0);
    assert [] + [e0] == [e0];
    assert Run(Initial, [e0]) == Replay(Initial, []);
    RunSnoc(Initial, [e0], EffectRuns(w));
  }
}
