/** The HTTP invoker of trigger.hpp: many requests in flight, one retry counter shared by all of them.

    Handler-atomic: each completion handler is one event. Sockets, TLS and DNS appear only as the
    success or failure that a completion handler sees.
 */
module Invoker {

  datatype Outcome = Answered | Dropped | GaveUp

  /** What a posted request is waiting for. */
  datatype Phase = Resolving | Connecting | Handshaking | Writing | Reading | Ended(outcome: Outcome)

  /** `tls` and `warnings` never change: the stream type, and whether the log core opens a record of
      severity `warning`. The increment of `retried_` is an operand of that log statement. */
  datatype State = State(
    tls: bool, warnings: bool,
    requests: seq<Phase>,
    retried: nat,
    // History of the run.
    retries: nat, giveUps: nat, writes: nat)

  datatype Event =
    | Post(open: bool, named: bool)
    | Resolved(i: nat, ok: bool)
    | Connected(i: nat, ok: bool)
    | Shaken(i: nat, ok: bool)
    | Written(i: nat, ok: bool, named: bool)
    | Read(i: nat, ok: bool)

  function Init(tls: bool, warnings: bool): State {
    State(tls, warnings, [], 0, 0, 0, 0)
  }

  /** `start_resolve` gives up silently when the TLS host name cannot be set. */
  function ResolvePhase(s: State, named: bool): Phase {
    if s.tls && !named then Ended(Dropped) else Resolving
  }

  function Move(s: State, i: nat, p: Phase): State
    requires i < |s.requests|
  {
    s.(requests := s.requests[i := p], writes := s.writes + if p.Writing? then 1 else 0)
  }

  predicate Enabled(s: State, e: Event) {
    match e
    case Post(_, _) => true
    case Resolved(i, _) => i < |s.requests| && s.requests[i].Resolving?
    case Connected(i, _) => i < |s.requests| && s.requests[i].Connecting?
    case Shaken(i, _) => i < |s.requests| && s.requests[i].Handshaking?
    case Written(i, _, _) => i < |s.requests| && s.requests[i].Writing?
    case Read(i, _) => i < |s.requests| && s.requests[i].Reading?
  }

  function Apply(s: State, e: Event): State
    requires Enabled(s, e)
  {
    match e
    case Post(open, named) =>
      var p := if open then Writing else ResolvePhase(s, named);
      s.(requests := s.requests + [p], writes := s.writes + if open then 1 else 0)
    case Resolved(i, ok) => Move(s, i, if ok then Connecting else Ended(Dropped))
    case Connected(i, ok) =>
      Move(s, i, if !ok then Ended(Dropped) else if s.tls then Handshaking else Writing)
    case Shaken(i, ok) => Move(s, i, if ok then Writing else Ended(Dropped))
    case Written(i, ok, named) =>
      if ok then Move(s, i, Reading)
      else if s.retried < 3 then
        Move(s, i, ResolvePhase(s, named))
        .(retried := s.retried + if s.warnings then 1 else 0, retries := s.retries + 1)
      else
        Move(s, i, Ended(GaveUp)).(retried := 0, giveUps := s.giveUps + 1)
    case Read(i, ok) => Move(s, i, if ok then Ended(Answered) else Ended(Dropped))
  }

  predicate IsRun(s: State, es: seq<Event>)
    decreases |es|
  {
    es == [] || (Enabled(s, es[0]) && IsRun(Apply(s, es[0]), es[1..]))
  }

  function After(s: State, es: seq<Event>): State
    requires IsRun(s, es)
    decreases |es|
  {
    if es == [] then s else After(Apply(s, es[0]), es[1..])
  }

  // Which event moves a request where ----------------------------------------------------------------

  /** Request `i` is new in phase `p`. */
  predicate Enters(s: State, u: State, i: nat, p: Phase) {
    i < |u.requests| && u.requests[i] == p && (i < |s.requests| ==> s.requests[i] != p)
  }

  /** Every phase is entered at exactly these events. On TLS a request is written behind its handshake, on a plain
      stream behind its connect, and in either case at once when it is posted on an open socket; it is read behind a
      successful write and answered by a successful read; any other failure drops it. */
  lemma {:induction false} PhasesEntered(s: State, e: Event, i: nat)
    requires Enabled(s, e)
    ensures Enters(s, Apply(s, e), i, Writing) <==>
      (e.Post? && e.open && i == |s.requests|) || e == Shaken(i, true) || (!s.tls && e == Connected(i, true))
    ensures Enters(s, Apply(s, e), i, Handshaking) <==> s.tls && e == Connected(i, true)
    ensures Enters(s, Apply(s, e), i, Connecting) <==> e == Resolved(i, true)
    ensures Enters(s, Apply(s, e), i, Resolving) <==>
      (e.Post? && !e.open && i == |s.requests| && (e.named || !s.tls)) ||
      (e.Written? && e.i == i && !e.ok && s.retried < 3 && (e.named || !s.tls))
    ensures Enters(s, Apply(s, e), i, Reading) <==> e.Written? && e.i == i && e.ok
    ensures Enters(s, Apply(s, e), i, Ended(Answered)) <==> e == Read(i, true)
    ensures Enters(s, Apply(s, e), i, Ended(GaveUp)) <==> e.Written? && e.i == i && !e.ok && s.retried >= 3
    ensures Enters(s, Apply(s, e), i, Ended(Dropped)) <==>
      e == Resolved(i, false) || e == Connected(i, false) || e == Shaken(i, false) || e == Read(i, false) ||
      (s.tls && e.Post? && !e.open && !e.named && i == |s.requests|) ||
      (s.tls && e.Written? && e.i == i && !e.ok && !e.named && s.retried < 3)
  {
  }

  /** No event touches any request but its own; and the shared counter moves at failed writes alone. */
  lemma {:induction false} EventsTouchTheirOwn(s: State, e: Event, i: nat)
    requires Enabled(s, e) && i < |s.requests|
    ensures i < |Apply(s, e).requests| && (e.Post? || e.i != i ==> Apply(s, e).requests[i] == s.requests[i])
    ensures |Apply(s, e).requests| == |s.requests| + if e.Post? then 1 else 0
    ensures Apply(s, e).tls == s.tls && Apply(s, e).warnings == s.warnings
    ensures Apply(s, e).writes == s.writes +
      if (e.Post? && e.open) || (e.Shaken? && e.ok) || (!s.tls && e.Connected? && e.ok) then 1 else 0
    ensures !(e.Written? && !e.ok) ==> Apply(s, e).retried == s.retried
    ensures e.Written? && !e.ok && s.retried >= 3 ==> Apply(s, e).retried == 0
    ensures e.Written? && !e.ok && s.retried < 3 ==> Apply(s, e).retried == s.retried + if s.warnings then 1 else 0
  {
  }

  /** Whatever a request waits for may succeed or fail; and a request may be posted at any time. */
  lemma {:induction false} EventsPossible(s: State, i: nat, ok: bool, named: bool)
    ensures Enabled(s, Post(ok, named))
    ensures i < |s.requests| && s.requests[i] == Resolving <==> Enabled(s, Resolved(i, ok))
    ensures i < |s.requests| && s.requests[i] == Connecting <==> Enabled(s, Connected(i, ok))
    ensures i < |s.requests| && s.requests[i] == Handshaking <==> Enabled(s, Shaken(i, ok))
    ensures i < |s.requests| && s.requests[i] == Writing <==> Enabled(s, Written(i, ok, named))
    ensures i < |s.requests| && s.requests[i] == Reading <==> Enabled(s, Read(i, ok))
  {
  }

  lemma {:induction false} LastEvent(s: State, es: seq<Event>)
    requires IsRun(s, es) && es != []
    ensures var n := |es| - 1;
      IsRun(s, es[..n]) && Enabled(After(s, es[..n]), es[n]) && After(s, es) == Apply(After(s, es[..n]), es[n])
    decreases |es|
  {
    hide Apply, Enabled;
    var n := |es| - 1;
    if n == 0 {
      assert es[..0] == [] && es[1..] == [];
    } else {
      LastEvent(Apply(s, es[0]), es[1..]);
      assert es[..n][0] == es[0] && es[..n][1..] == es[1..][..n - 1];
    }
  }

  /** The stream type never changes. */
  lemma {:induction false} SameStream(s: State, es: seq<Event>)
    requires IsRun(s, es)
    ensures After(s, es).tls == s.tls
    decreases |es|
  {
    if es != [] {
      SameStream(Apply(s, es[0]), es[1..]);
    }
  }

  /** On a plain stream no request is ever in a handshake. */
  lemma {:induction false} PlainNeverShakes(warnings: bool, es: seq<Event>, i: nat)
    requires IsRun(Init(false, warnings), es) && i < |After(Init(false, warnings), es).requests|
    ensures After(Init(false, warnings), es).requests[i] != Handshaking
    decreases |es|
  {
    hide Apply, Enabled;
    var s := Init(false, warnings);
    if es != [] {
      LastEvent(s, es);
      var u := After(s, es[..|es| - 1]);
      SameStream(s, es[..|es| - 1]);
      PhasesEntered(u, es[|es| - 1], i);
      if i < |u.requests| {
        PlainNeverShakes(warnings, es[..|es| - 1], i);
      }
    }
  }

  /** Event `k` of a run is the successful handshake of request `i`, or its post on an open socket. */
  ghost predicate ReadiesWrite(s: State, es: seq<Event>, k: nat, i: nat) {
    k < |es| && (es[k] == Shaken(i, true) ||
                 (es[k].Post? && es[k].open && IsRun(s, es[..k]) && |After(s, es[..k]).requests| == i))
  }

  /** In any run a TLS request that is being written has shaken hands or was posted on an open socket. */
  lemma {:induction false} WrittenBehindHandshake(warnings: bool, es: seq<Event>, i: nat) returns (k: nat)
    requires IsRun(Init(true, warnings), es) && i < |After(Init(true, warnings), es).requests|
    requires After(Init(true, warnings), es).requests[i] == Writing
    ensures ReadiesWrite(Init(true, warnings), es, k, i)
    decreases |es|
  {
    hide Apply, Enabled;
    var s := Init(true, warnings);
    if es == [] {
      assert false;
    } else {
      var n := |es| - 1;
      LastEvent(s, es);
      var u := After(s, es[..n]);
      SameStream(s, es[..n]);
      PhasesEntered(u, es[n], i);
      k := n;
      if i < |u.requests| && u.requests[i] == Writing {
        k := WrittenBehindHandshake(warnings, es[..n], i);
        assert es[k] == es[..n][k] && es[..n][..k] == es[..k];
      }
    }
  }

  /** In any run a request whose response is being read was written successfully. */
  lemma {:induction false} ReadBehindWrite(tls: bool, warnings: bool, es: seq<Event>, i: nat) returns (a: nat)
    requires IsRun(Init(tls, warnings), es) && i < |After(Init(tls, warnings), es).requests|
    requires After(Init(tls, warnings), es).requests[i] == Reading
    ensures a < |es| && es[a].Written? && es[a].i == i && es[a].ok
    decreases |es|
  {
    hide Apply, Enabled;
    var s := Init(tls, warnings);
    if es == [] {
      assert false;
    } else {
      var n := |es| - 1;
      LastEvent(s, es);
      PhasesEntered(After(s, es[..n]), es[n], i);
      a := n;
      if i < |After(s, es[..n]).requests| && After(s, es[..n]).requests[i] == Reading {
        a := ReadBehindWrite(tls, warnings, es[..n], i);
      }
    }
  }

  /** In any run a request that was answered was first written and then read, both successfully. */
  lemma {:induction false} AnsweredBehindRead(tls: bool, warnings: bool, es: seq<Event>, i: nat) returns (a: nat, b: nat)
    requires IsRun(Init(tls, warnings), es) && i < |After(Init(tls, warnings), es).requests|
    requires After(Init(tls, warnings), es).requests[i] == Ended(Answered)
    ensures a < b < |es| && es[a].Written? && es[a].i == i && es[a].ok && es[b] == Read(i, true)
    decreases |es|
  {
    hide Apply;
    var s := Init(tls, warnings);
    if es == [] {
      assert false;
    } else {
      var n := |es| - 1;
      LastEvent(s, es);
      PhasesEntered(After(s, es[..n]), es[n], i);
      if i < |After(s, es[..n]).requests| && After(s, es[..n]).requests[i] == Ended(Answered) {
        a, b := AnsweredBehindRead(tls, warnings, es[..n], i);
      } else {
        a := ReadBehindWrite(tls, warnings, es[..n], i);
        b := n;
      }
    }
  }

  // Sums over the requests ---------------------------------------------------------------------------

  function Sum(s: seq<Phase>, f: Phase -> nat): nat {
    if s == [] then 0 else f(s[0]) + Sum(s[1..], f)
  }

  lemma {:induction false} SumUpdate(s: seq<Phase>, i: nat, p: Phase, f: Phase -> nat)
    requires i < |s|
    ensures Sum(s[i := p], f) == Sum(s, f) - f(s[i]) + f(p)
  {
    if i == 0 {
      assert s[0 := p][1..] == s[1..];
    } else {
      SumUpdate(s[1..], i - 1, p, f);
      assert s[i := p][1..] == s[1..][i - 1 := p];
    }
  }

  lemma {:induction false} SumAppend(s: seq<Phase>, p: Phase, f: Phase -> nat)
    ensures Sum(s + [p], f) == Sum(s, f) + f(p)
  {
    if s == [] {
      assert s + [p] == [p];
    } else {
      SumAppend(s[1..], p, f);
      assert (s + [p])[1..] == s[1..] + [p];
    }
  }

  lemma {:induction false} SumBelow(s: seq<Phase>, f: Phase -> nat, i: nat)
    requires forall p :: f(p) <= 1
    requires i < |s| && f(s[i]) == 0
    ensures Sum(s, f) < |s|
  {
    SumAtMost(s[1..], f);
    if i > 0 {
      SumBelow(s[1..], f, i - 1);
    }
  }

  lemma {:induction false} SumAtMost(s: seq<Phase>, f: Phase -> nat)
    requires forall p :: f(p) <= 1
    ensures Sum(s, f) <= |s|
  {
    if s != [] {
      SumAtMost(s[1..], f);
    }
  }

  /** On the way to a write. */
  function BeforeWrite(p: Phase): nat {
    if p.Resolving? || p.Connecting? || p.Handshaking? then 1 else 0
  }

  function HasGivenUp(p: Phase): nat {
    if p == Ended(GaveUp) then 1 else 0
  }

  /** Completions still ahead of a request, not counting retries. */
  function Rank(p: Phase): nat {
    match p
    case Resolving => 5
    case Connecting => 4
    case Handshaking => 3
    case Writing => 2
    case Reading => 1
    case Ended(_) => 0
  }

  // The shared budget --------------------------------------------------------------------------------

  /** Every give-up was paid for by three retries, and the counter holds the change. */
  ghost predicate Inv(s: State) {
    && s.warnings
    && s.retried <= 3
    && s.retries == 3 * s.giveUps + s.retried
    && s.giveUps == Sum(s.requests, HasGivenUp)
    && s.giveUps <= |s.requests|
    && (s.retried > 0 ==> s.giveUps < |s.requests|)
    && s.writes + Sum(s.requests, BeforeWrite) <= |s.requests| + s.retries
  }

  /** Decreases at every event but `Post`. */
  ghost function Measure(s: State): int {
    4 * (3 * |s.requests| - s.retries) + Sum(s.requests, Rank)
  }

  lemma {:induction false} MoveSums(s: State, i: nat, p: Phase)
    requires i < |s.requests|
    ensures var t := Move(s, i, p);
            var q := s.requests[i];
            && Sum(t.requests, HasGivenUp) == Sum(s.requests, HasGivenUp) - HasGivenUp(q) + HasGivenUp(p)
            && Sum(t.requests, BeforeWrite) == Sum(s.requests, BeforeWrite) - BeforeWrite(q) + BeforeWrite(p)
            && Sum(t.requests, Rank) == Sum(s.requests, Rank) - Rank(q) + Rank(p)
    ensures HasGivenUp(s.requests[i]) == 0 ==> Sum(s.requests, HasGivenUp) < |s.requests|
  {
    SumUpdate(s.requests, i, p, HasGivenUp);
    SumUpdate(s.requests, i, p, BeforeWrite);
    SumUpdate(s.requests, i, p, Rank);
    if HasGivenUp(s.requests[i]) == 0 {
      SumBelow(s.requests, HasGivenUp, i);
    }
  }

  lemma {:induction false} PostKeepsInv(s: State, open: bool, named: bool)
    requires Inv(s)
    ensures var t := Apply(s, Post(open, named)); Inv(t) && Measure(t) <= Measure(s) + 17
  {
    var p := if open then Writing else ResolvePhase(s, named);
    SumAppend(s.requests, p, HasGivenUp);
    SumAppend(s.requests, p, BeforeWrite);
    SumAppend(s.requests, p, Rank);
  }

  /** A request goes forward, or is dropped. */
  lemma {:induction false} ForwardKeepsInv(s: State, i: nat, p: Phase)
    requires Inv(s) && i < |s.requests|
    requires var q := s.requests[i];
             !q.Ended? && p != Ended(GaveUp) && Rank(p) < Rank(q) && BeforeWrite(p) <= BeforeWrite(q) &&
             (p.Writing? ==> BeforeWrite(q) == 1)
    ensures var t := Move(s, i, p); Inv(t) && Measure(t) < Measure(s)
  {
    MoveSums(s, i, p);
  }

  lemma {:induction false} RetryKeepsInv(s: State, i: nat, named: bool)
    requires Inv(s) && Enabled(s, Written(i, false, named)) && s.retried < 3
    ensures var t := Apply(s, Written(i, false, named)); Inv(t) && Measure(t) < Measure(s)
  {
    MoveSums(s, i, ResolvePhase(s, named));
  }

  lemma {:induction false} GiveUpKeepsInv(s: State, i: nat, named: bool)
    requires Inv(s) && Enabled(s, Written(i, false, named)) && s.retried >= 3
    ensures var t := Apply(s, Written(i, false, named)); Inv(t) && Measure(t) < Measure(s)
  {
    MoveSums(s, i, Ended(GaveUp));
  }

  /** One event keeps the invariant, and moves the measure down by at least one, or, for `Post`, up by
      at most 17. */
  lemma {:induction false} StepKeepsInv(s: State, e: Event)
    requires Inv(s) && Enabled(s, e)
    ensures Inv(Apply(s, e))
    ensures if e.Post? then Measure(Apply(s, e)) <= Measure(s) + 17 else Measure(Apply(s, e)) < Measure(s)
  {
    match e
    case Post(open, named) => PostKeepsInv(s, open, named);
    case Resolved(i, ok) => ForwardKeepsInv(s, i, if ok then Connecting else Ended(Dropped));
    case Connected(i, ok) =>
      ForwardKeepsInv(s, i, if !ok then Ended(Dropped) else if s.tls then Handshaking else Writing);
    case Shaken(i, ok) => ForwardKeepsInv(s, i, if ok then Writing else Ended(Dropped));
    case Written(i, ok, named) =>
      if ok {
        ForwardKeepsInv(s, i, Reading);
      } else if s.retried < 3 {
        RetryKeepsInv(s, i, named);
      } else {
        GiveUpKeepsInv(s, i, named);
      }
    case Read(i, ok) => ForwardKeepsInv(s, i, if ok then Ended(Answered) else Ended(Dropped));
  }

  lemma {:induction false} RunKeepsInv(s: State, es: seq<Event>)
    requires Inv(s) && IsRun(s, es)
    ensures Inv(After(s, es))
    ensures |es| + Measure(After(s, es)) <= Measure(s) + 18 * (|After(s, es).requests| - |s.requests|)
    decreases |es|
  {
    if es != [] {
      var t := Apply(s, es[0]);
      StepKeepsInv(s, es[0]);
      assert |t.requests| == |s.requests| + if es[0].Post? then 1 else 0;
      RunKeepsInv(t, es[1..]);
    }
  }

  /** In any interleaving of any number of requests: retries are three per give-up plus the counter,
      the counter stays in 0..3, writes are at most four per request, and the run is finite, with at
      most 18 events per request. */
  lemma {:induction false} SharedRetryBudget(tls: bool, es: seq<Event>)
    requires IsRun(Init(tls, true), es)
    ensures var s := After(Init(tls, true), es);
            && s.retries == 3 * s.giveUps + s.retried
            && 0 <= s.retried <= 3
            && s.writes <= 4 * |s.requests|
            && |es| <= 18 * |s.requests|
  {
    RunKeepsInv(Init(tls, true), es);
  }

  // The bound is exact, and hangs on the log level -----------------------------------------------------

  lemma {:induction false} Extend(s: State, es: seq<Event>, e: Event)
    requires IsRun(s, es) && Enabled(After(s, es), e)
    ensures IsRun(s, es + [e]) && After(s, es + [e]) == Apply(After(s, es), e)
    decreases |es|
  {
    if es == [] {
      assert es + [e] == [e] && [e][1..] == [];
    } else {
      Extend(Apply(s, es[0]), es[1..], e);
      assert (es + [e])[0] == es[0] && (es + [e])[1..] == es[1..] + [e];
    }
  }

  /** A failed write of request `i`, and the way back to its next write over plain TCP. */
  lemma {:induction false} RetryOnce(s: State, before: seq<Event>, i: nat) returns (es: seq<Event>)
    requires IsRun(s, before)
    requires var t := After(s, before);
             !t.tls && i < |t.requests| && t.requests[i] == Writing && t.retried < 3
    ensures IsRun(s, es)
    ensures var t := After(s, before);
            After(s, es) == t.(retried := t.retried + if t.warnings then 1 else 0,
                               retries := t.retries + 1, writes := t.writes + 1)
  {
    Extend(s, before, Written(i, false, true));
    es := before + [Written(i, false, true)];
    Extend(s, es, Resolved(i, true));
    es := es + [Resolved(i, true)];
    Extend(s, es, Connected(i, true));
    es := es + [Connected(i, true)];
    assert After(s, es).requests == After(s, before).requests;
  }

  /** With the warning record filtered out the counter never moves, and one request retries for ever. */
  lemma {:induction false} SilentLogRetriesForever(k: nat) returns (es: seq<Event>)
    ensures IsRun(Init(false, false), es)
    ensures After(Init(false, false), es) == State(false, false, [Writing], 0, k, 0, k + 1)
  {
    var s0 := Init(false, false);
    if k == 0 {
      Extend(s0, [], Post(true, true));
      es := [] + [Post(true, true)];
    } else {
      var before := SilentLogRetriesForever(k - 1);
      es := RetryOnce(s0, before, 0);
    }
  }

  ghost predicate WritesBounded(warnings: bool) {
    forall tls, es :: IsRun(Init(tls, warnings), es) ==>
      After(Init(tls, warnings), es).writes <= 4 * |After(Init(tls, warnings), es).requests|
  }

  /** Four writes per request is a bound if and only if the warning record is enabled. */
  lemma {:induction false} WritesBoundedIff(warnings: bool)
    ensures WritesBounded(warnings) <==> warnings
  {
    if warnings {
      forall tls, es | IsRun(Init(tls, true), es)
        ensures After(Init(tls, true), es).writes <= 4 * |After(Init(tls, true), es).requests|
      {
        SharedRetryBudget(tls, es);
      }
    } else {
      var es := SilentLogRetriesForever(4);
      assert IsRun(Init(false, warnings), es);
    }
  }

  function GaveUpTimes(n: nat): (r: seq<Phase>)
    ensures |r| == n
  {
    if n == 0 then [] else GaveUpTimes(n - 1) + [Ended(GaveUp)]
  }

  /** From any quiet moment, one more request can fail all its four writes and give up. */
  lemma {:induction false} DoomedRequest(s: State, before: seq<Event>) returns (es: seq<Event>)
    requires IsRun(s, before)
    requires var t := After(s, before); !t.tls && t.warnings && t.retried == 0
    ensures IsRun(s, es)
    ensures var t := After(s, before);
            After(s, es) == t.(requests := t.requests + [Ended(GaveUp)], retries := t.retries + 3,
                               giveUps := t.giveUps + 1, writes := t.writes + 4)
  {
    var t := After(s, before);
    var i := |t.requests|;
    Extend(s, before, Post(true, true));
    var posted := before + [Post(true, true)];
    var once := RetryOnce(s, posted, i);
    var twice := RetryOnce(s, once, i);
    var thrice := RetryOnce(s, twice, i);
    Extend(s, thrice, Written(i, false, true));
    es := thrice + [Written(i, false, true)];
    assert (t.requests + [Writing])[i := Ended(GaveUp)] == t.requests + [Ended(GaveUp)];
  }

  /** The bound is attained for every number of requests. */
  lemma {:induction false} BoundAttained(n: nat) returns (es: seq<Event>)
    ensures IsRun(Init(false, true), es)
    ensures var s := After(Init(false, true), es);
            |s.requests| == n && s.writes == 4 * n && s.retried == 0 && s.warnings && !s.tls
  {
    if n == 0 {
      es := [];
    } else {
      var before := BoundAttained(n - 1);
      es := DoomedRequest(Init(false, true), before);
    }
  }

  // The invoker as an object -------------------------------------------------------------------------

  class InvokerObject {
    const tls: bool
    const warnings: bool
    var requests: seq<Phase>
    var retried: nat
    ghost var retries: nat
    ghost var giveUps: nat
    ghost var writes: nat

    ghost function View(): State
      reads this
    {
      State(tls, warnings, requests, retried, retries, giveUps, writes)
    }

    constructor (tls: bool, warnings: bool)
      ensures View() == Init(tls, warnings)
    {
      this.tls, this.warnings := tls, warnings;
      requests, retried, retries, giveUps, writes := [], 0, 0, 0, 0;
    }

    /** `start_post`: writes at once on an open socket, resolves otherwise. */
    method StartPost(open: bool, named: bool)
      modifies this
      ensures View() == Apply(old(View()), Post(open, named))
      ensures old(Inv(View())) ==> Inv(View())
    {
      StepLemma(Post(open, named));
      requests := requests + [Ended(Dropped)];
      if open {
        StartWrite(|requests| - 1);
      } else {
        StartResolve(|requests| - 1, named);
      }
    }

    method StartResolve(i: nat, named: bool)
      requires i < |requests|
      modifies this`requests
      ensures requests == old(requests)[i := ResolvePhase(View(), named)]
    {
      requests := requests[i := if tls && !named then Ended(Dropped) else Resolving];
    }

    method StartWrite(i: nat)
      requires i < |requests|
      modifies this`requests, this`writes
      ensures requests == old(requests)[i := Writing] && writes == old(writes) + 1
    {
      requests, writes := requests[i := Writing], writes + 1;
    }

    method OnResolved(i: nat, ok: bool)
      requires Enabled(View(), Resolved(i, ok))
      modifies this
      ensures View() == Apply(old(View()), Resolved(i, ok))
      ensures old(Inv(View())) ==> Inv(View())
    {
      StepLemma(Resolved(i, ok));
      requests := requests[i := if ok then Connecting else Ended(Dropped)];
    }

    method OnConnected(i: nat, ok: bool)
      requires Enabled(View(), Connected(i, ok))
      modifies this
      ensures View() == Apply(old(View()), Connected(i, ok))
      ensures old(Inv(View())) ==> Inv(View())
    {
      StepLemma(Connected(i, ok));
      if !ok {
        requests := requests[i := Ended(Dropped)];
      } else if tls {
        requests := requests[i := Handshaking];
      } else {
        StartWrite(i);
      }
    }

    method OnShaken(i: nat, ok: bool)
      requires Enabled(View(), Shaken(i, ok))
      modifies this
      ensures View() == Apply(old(View()), Shaken(i, ok))
      ensures old(Inv(View())) ==> Inv(View())
    {
      StepLemma(Shaken(i, ok));
      if ok {
        StartWrite(i);
      } else {
        requests := requests[i := Ended(Dropped)];
      }
    }

    /** The write completion: success reads the answer, failure spends the shared counter. */
    method OnWritten(i: nat, ok: bool, named: bool)
      requires Enabled(View(), Written(i, ok, named))
      modifies this
      ensures View() == Apply(old(View()), Written(i, ok, named))
      ensures old(Inv(View())) ==> Inv(View())
    {
      StepLemma(Written(i, ok, named));
      if ok {
        requests := requests[i := Reading];
      } else if retried < 3 {
        StartResolve(i, named);
        if warnings {
          retried := retried + 1;
        }
        retries := retries + 1;
      } else {
        requests := requests[i := Ended(GaveUp)];
        retried, giveUps := 0, giveUps + 1;
      }
    }

    method OnRead(i: nat, ok: bool)
      requires Enabled(View(), Read(i, ok))
      modifies this
      ensures View() == Apply(old(View()), Read(i, ok))
      ensures old(Inv(View())) ==> Inv(View())
    {
      StepLemma(Read(i, ok));
      requests := requests[i := if ok then Ended(Answered) else Ended(Dropped)];
    }

    lemma {:induction false} StepLemma(e: Event)
      requires Enabled(View(), e)
      ensures Inv(View()) ==> Inv(Apply(View(), e))
    {
      if Inv(View()) {
        StepKeepsInv(View(), e);
      }
    }
  }
}
