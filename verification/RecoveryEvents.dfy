/** Provider recovery evidence: what the attempt parser of airlock-runner.ts keeps.

  A completed Promotion may be recovered again and again, and each recovery leaves
  reconcile events, whole or cut short by a failure or a crash. The parser walks the
  events once. Its meaning is stated against `History`: a way to cut the events into
  attempts, each whole, failed or abandoned.
*/
module RecoveryEvents {
  datatype Option<T> = None | Some(value: T)

  datatype Provider = Provider(id: string, kind: string)

  datatype Stage = Prepare | Runtime | Describe | Validate | PlanPromotion | Promote | Quarantine | Discard | Reconcile

  datatype Status = Passed | Failed | OtherStatus

  /** `exact` says that the keys, the schema version, the summary and the timestamp are those the parser wants. */
  datatype Event = Event(provider: Provider, stage: Stage, status: Status, exact: bool, detail: string)

  predicate Reconciles(e: Event, p: Provider) {
    e.exact && e.stage == Reconcile && e.provider == p
  }

  predicate PassedOn(p: Provider, stage: Stage, e: Event) {
    e.exact && e.stage == stage && e.provider == p && e.status == Passed
  }

  /** One passed report for each provider, in order. */
  predicate Pass(p: seq<Provider>, stage: Stage, xs: seq<Event>) {
    |xs| == |p| && forall i | 0 <= i < |xs| :: PassedOn(p[i], stage, xs[i])
  }

  predicate Distinct<T(==)>(s: seq<T>) { forall i, j | 0 <= i < j < |s| :: s[i] != s[j] }

  // ---- The meaning: attempts ----

  type Events = seq<Event>

  predicate InOrder(p: seq<Provider>, xs: Events) {
    |xs| <= |p| && forall i | 0 <= i < |xs| :: Reconciles(xs[i], p[i]) && xs[i].status == Passed
  }

  predicate Whole(p: seq<Provider>, xs: Events) { InOrder(p, xs) && |xs| == |p| }

  /** A prefix of a whole attempt, left unfinished. */
  predicate Abandoned(p: seq<Provider>, xs: Events) { InOrder(p, xs) && 0 < |xs| < |p| }

  predicate CutByFailure(p: seq<Provider>, xs: Events) {
    && 0 < |xs| <= |p|
    && InOrder(p, xs[..|xs| - 1])
    && Reconciles(xs[|xs| - 1], p[|xs| - 1])
    && xs[|xs| - 1].status == Failed
  }

  predicate Attempt(p: seq<Provider>, xs: Events) {
    Whole(p, xs) || Abandoned(p, xs) || CutByFailure(p, xs)
  }

  predicate History(p: seq<Provider>, h: seq<Events>) { forall i | 0 <= i < |h| :: Attempt(p, h[i]) }

  function Flat(h: seq<Events>): Events {
    if h == [] then [] else Flat(h[..|h| - 1]) + h[|h| - 1]
  }

  /** The whole attempts of a history, in order. */
  function Kept(p: seq<Provider>, h: seq<Events>): (k: seq<Events>)
    ensures forall i | 0 <= i < |k| :: Whole(p, k[i])
  {
    if h == [] then []
    else
      var front := Kept(p, h[..|h| - 1]);
      if Whole(p, h[|h| - 1]) then front + [h[|h| - 1]] else front
  }

  // ---- The parser ----

  datatype Parsing = Parsing(complete: Events, attempt: Events, lastComplete: bool)

  /** One turn of the parser's loop; the expected index is the length of the attempt so far. */
  function Step(p: seq<Provider>, s: Parsing, e: Event): (r: Option<Parsing>)
    requires 0 < |p| && |s.attempt| < |p|
    ensures r.Some? ==> |r.value.attempt| < |p|
  {
    var restart := |s.attempt| > 0 && e.provider != p[|s.attempt|] && e.provider == p[0];
    var attempt := if restart then [] else s.attempt;
    if !Reconciles(e, p[|attempt|]) || e.status == OtherStatus then None
    else if e.status == Failed then Some(Parsing(s.complete, [], false))
    else if |attempt| + 1 == |p| then Some(Parsing(s.complete + (attempt + [e]), [], true))
    else Some(Parsing(s.complete, attempt + [e], false))
  }

  function Parse(p: seq<Provider>, events: Events): (r: Option<Parsing>)
    requires 0 < |p|
    ensures r.Some? ==> |r.value.attempt| < |p|
  {
    if events == [] then Some(Parsing([], [], false))
    else
      var front := Parse(p, events[..|events| - 1]);
      if front.None? then None else Step(p, front.value, events[|events| - 1])
  }

  /** The loop of parseCompletedPromotionRecoveryAttempts; None is its null. */
  method ParseAttempts(events: Events, expected: seq<Provider>) returns (r: Option<Parsing>)
    requires 0 < |expected|
    ensures r == Parse(expected, events)
  {
    var complete: Events, attempt: Events, expectedIndex, lastComplete := [], [], 0, false;
    for i := 0 to |events|
      invariant expectedIndex == |attempt| < |expected|
      invariant Parse(expected, events[..i]) == Some(Parsing(complete, attempt, lastComplete))
    {
      var event := events[i];
      assert events[..i + 1][..i] == events[..i];
      ParseStops(expected, events, i + 1);
      if expectedIndex > 0 && event.provider != expected[expectedIndex] && event.provider == expected[0] {
        attempt, expectedIndex, lastComplete := [], 0, false;
      }
      if !Reconciles(event, expected[expectedIndex]) || event.status == OtherStatus {
        return None;
      }
      attempt := attempt + [event];
      if event.status == Failed {
        attempt, expectedIndex, lastComplete := [], 0, false;
        continue;
      }
      expectedIndex := expectedIndex + 1;
      if expectedIndex == |expected| {
        complete := complete + attempt;
        attempt, expectedIndex, lastComplete := [], 0, true;
      } else {
        lastComplete := false;
      }
    }
    assert events[..|events|] == events;
    return Some(Parsing(complete, attempt, lastComplete));
  }

  /** Once the parser has refused a prefix it refuses the whole. */
  lemma {:induction false} ParseStops(p: seq<Provider>, events: Events, i: nat)
    requires 0 < |p| && i <= |events|
    ensures Parse(p, events[..i]).None? ==> Parse(p, events).None?
    decreases |events|
  {
    if i == |events| {
      assert events[..i] == events;
    } else {
      ParseStops(p, events[..|events| - 1], i);
      assert events[..|events| - 1][..i] == events[..i];
    }
  }

  // ---- The parser finds the history ----

  predicate EndsWhole(p: seq<Provider>, h: seq<Events>) { h != [] && Whole(p, h[|h| - 1]) }

  /** What the parser holds after the events of a history. */
  function After(p: seq<Provider>, h: seq<Events>): Parsing {
    Parsing(Flat(Kept(p, h)), if h != [] && Abandoned(p, h[|h| - 1]) then h[|h| - 1] else [], EndsWhole(p, h))
  }

  lemma Pushed(p: seq<Provider>, h: seq<Events>, xs: Events)
    ensures Flat(h + [xs]) == Flat(h) + xs
    ensures Flat(Kept(p, h + [xs])) == Flat(Kept(p, h)) + if Whole(p, xs) then xs else []
  {
    assert (h + [xs])[..|h|] == h;
    var k := Kept(p, h);
    assert (k + [xs])[..|k|] == k;
  }

  lemma AfterPush(p: seq<Provider>, h: seq<Events>, xs: Events)
    requires Attempt(p, xs) && xs != []
    ensures After(p, h + [xs]) ==
      if Whole(p, xs) then Parsing(Flat(Kept(p, h)) + xs, [], true)
      else Parsing(Flat(Kept(p, h)), if CutByFailure(p, xs) then [] else xs, false)
  {
    hide Flat, Kept;
    Pushed(p, h, xs);
    Kinds(p, xs);
  }

  /** The three kinds of attempt exclude one another. */
  lemma Kinds(p: seq<Provider>, xs: Events)
    requires Attempt(p, xs) && xs != []
    ensures CutByFailure(p, xs) == (xs[|xs| - 1].status == Failed)
    ensures Whole(p, xs) || Abandoned(p, xs) ==> !CutByFailure(p, xs)
  {
  }

  /** An event on the first provider starts over, whatever was pending. */
  lemma StepStarts(p: seq<Provider>, s: Parsing, e: Event)
    requires 0 < |p| && Distinct(p) && |s.attempt| < |p| && e.provider == p[0]
    ensures Step(p, s, e) == Step(p, Parsing(s.complete, [], false), e)
  {
  }

  /** The step that ends an attempt, or lengthens it. */
  lemma StepGrows(p: seq<Provider>, s: Parsing, xs: Events)
    requires 0 < |p| && Distinct(p) && Attempt(p, xs) && xs != []
    requires s.attempt == xs[..|xs| - 1]
    ensures Step(p, s, xs[|xs| - 1]) == Some(
      if Whole(p, xs) then Parsing(s.complete + xs, [], true)
      else Parsing(s.complete, if CutByFailure(p, xs) then [] else xs, false))
  {
    Kinds(p, xs);
    assert xs == xs[..|xs| - 1] + [xs[|xs| - 1]];
    assert xs[|xs| - 1].provider == p[|xs| - 1];
  }

  lemma FirstProvider(p: seq<Provider>, xs: Events)
    requires Attempt(p, xs) && xs != []
    ensures xs[0].provider == p[0] && xs[0].status != OtherStatus
  {
    if CutByFailure(p, xs) && |xs| > 1 {
      assert Reconciles(xs[..|xs| - 1][0], p[0]);
    }
  }

  lemma PrefixAbandoned(p: seq<Provider>, xs: Events, k: nat)
    requires Attempt(p, xs) && 0 < k < |xs|
    ensures Abandoned(p, xs[..k])
  {
    forall i | 0 <= i < k ensures Reconciles(xs[i], p[i]) && xs[i].status == Passed {
      if CutByFailure(p, xs) { assert xs[i] == xs[..|xs| - 1][i]; }
    }
  }

  /** Parsing an attempt after a history: nothing depends on what the history left pending. */
  lemma {:induction false} AttemptParses(p: seq<Provider>, h: seq<Events>, xs: Events)
    requires 0 < |p| && Distinct(p) && Attempt(p, xs) && xs != []
    requires Parse(p, Flat(h)) == Some(After(p, h))
    ensures Parse(p, Flat(h) + xs) == Some(After(p, h + [xs]))
    decreases |xs|
  {
    hide Whole, Abandoned, CutByFailure, InOrder, Kept, Flat, Step;
    var k := |xs| - 1;
    var events := Flat(h) + xs;
    assert events[..|events| - 1] == Flat(h) + xs[..k];
    AfterPush(p, h, xs);
    FirstProvider(p, xs);
    if k == 0 {
      assert Flat(h) + xs[..0] == Flat(h);
      StepStarts(p, After(p, h), xs[0]);
      StepGrows(p, Parsing(Flat(Kept(p, h)), [], false), xs);
    } else {
      PrefixAbandoned(p, xs, k);
      AttemptParses(p, h, xs[..k]);
      AfterAbandoned(p, h, xs[..k]);
      StepGrows(p, After(p, h + [xs[..k]]), xs);
    }
  }

  lemma AfterAbandoned(p: seq<Provider>, h: seq<Events>, xs: Events)
    requires Abandoned(p, xs)
    ensures After(p, h + [xs]) == Parsing(Flat(Kept(p, h)), xs, false)
  {
    AfterPush(p, h, xs);
  }

  /** Every history is read as itself: its whole attempts are kept, all else is dropped. */
  lemma {:induction false} HistoryParses(p: seq<Provider>, h: seq<Events>)
    requires 0 < |p| && Distinct(p) && History(p, h)
    ensures Parse(p, Flat(h)) == Some(After(p, h))
    decreases |h|
  {
    hide Attempt, Distinct, After, Parse, Kept, Flat;
    if h == [] {
      EmptyParses(p);
    } else {
      var front, xs := h[..|h| - 1], h[|h| - 1];
      HistoryParses(p, front);
      NonEmpty(p, xs);
      AttemptParses(p, front, xs);
      Pushed(p, front, xs);
      assert front + [xs] == h;
    }
  }

  lemma EmptyParses(p: seq<Provider>)
    requires 0 < |p|
    ensures Parse(p, Flat([])) == Some(After(p, []))
  {
  }

  lemma NonEmpty(p: seq<Provider>, xs: Events)
    requires 0 < |p| && Attempt(p, xs)
    ensures xs != []
  {
  }

  /** Whatever the parser accepts is a history, so it refuses exactly the rest. */
  lemma {:induction false} ParsedIsHistory(p: seq<Provider>, events: Events) returns (h: seq<Events>)
    requires 0 < |p| && Distinct(p) && Parse(p, events).Some?
    ensures History(p, h) && Flat(h) == events && Parse(p, events).value == After(p, h)
    decreases |events|
  {
    if events == [] {
      h := [];
    } else {
      hide Flat, Kept, Step, Attempt, After;
      var e := events[|events| - 1];
      var front := ParsedIsHistory(p, events[..|events| - 1]);
      assert events == events[..|events| - 1] + [e];
      var s := After(p, front);
      if |s.attempt| > 0 && e.provider == p[|s.attempt|] {
        h := Lengthened(p, front, e);
      } else {
        h := StartedOver(p, front, e);
      }
    }
  }

  /** The event begins an attempt of its own. */
  lemma StartedOver(p: seq<Provider>, front: seq<Events>, e: Event) returns (h: seq<Events>)
    requires 0 < |p| && Distinct(p) && History(p, front) && |After(p, front).attempt| < |p|
    requires |After(p, front).attempt| > 0 ==> e.provider != p[|After(p, front).attempt|]
    requires Step(p, After(p, front), e).Some?
    ensures History(p, h) && Flat(h) == Flat(front) + [e] && Step(p, After(p, front), e) == Some(After(p, h))
  {
    hide Flat, Kept, Attempt;
    var s := After(p, front);
    h := front + [[e]];
    StartsAttempt(p, s, e);
    AfterPush(p, front, [e]);
    StepStarts(p, s, e);
    StepGrows(p, Parsing(s.complete, [], false), [e]);
    Pushed(p, front, [e]);
  }

  lemma StartsAttempt(p: seq<Provider>, s: Parsing, e: Event)
    requires 0 < |p| && Distinct(p) && |s.attempt| < |p| && Step(p, s, e).Some?
    requires |s.attempt| > 0 ==> e.provider != p[|s.attempt|]
    ensures e.provider == p[0] && Attempt(p, [e])
  {
  }

  /** The event belongs to the attempt the history ends with. */
  lemma Lengthened(p: seq<Provider>, front: seq<Events>, e: Event) returns (h: seq<Events>)
    requires 0 < |p| && Distinct(p) && History(p, front) && 0 < |After(p, front).attempt| < |p|
    requires e.provider == p[|After(p, front).attempt|] && Step(p, After(p, front), e).Some?
    ensures History(p, h) && Flat(h) == Flat(front) + [e] && Step(p, After(p, front), e) == Some(After(p, h))
  {
    hide Flat, Kept;
    var ys := After(p, front).attempt;
    var xs := ys + [e];
    var base := front[..|front| - 1];
    assert front == base + [ys];
    h := base + [xs];
    assert Attempt(p, xs) by { LongerAttempt(p, ys, e); }
    Pushed(p, base, ys);
    Pushed(p, base, xs);
    AfterAbandoned(p, base, ys);
    AfterPush(p, base, xs);
    StepGrows(p, After(p, front), xs);
  }

  lemma LongerAttempt(p: seq<Provider>, ys: Events, e: Event)
    requires Abandoned(p, ys) && Reconciles(e, p[|ys|]) && e.status != OtherStatus
    ensures Attempt(p, ys + [e])
  {
    assert (ys + [e])[..|ys|] == ys;
  }

  // ---- What the normaliser may rely on ----

  predicate AllWhole(p: seq<Provider>, h: seq<Events>) { forall i | 0 <= i < |h| :: Whole(p, h[i]) }

  lemma {:induction false} KeepsWhole(p: seq<Provider>, h: seq<Events>)
    requires AllWhole(p, h)
    ensures Kept(p, h) == h
  {
    if h != [] {
      KeepsWhole(p, h[..|h| - 1]);
      assert h == h[..|h| - 1] + [h[|h| - 1]];
    }
  }

  /** Keeping is idempotent: what was kept parses to itself, and ends complete unless empty. */
  lemma KeptParses(p: seq<Provider>, events: Events)
    requires 0 < |p| && Distinct(p) && Parse(p, events).Some?
    ensures var c := Parse(p, events).value.complete;
      && Parse(p, c) == Some(Parsing(c, [], c != []))
      && (Parse(p, events).value.lastComplete ==> c != [])
  {
    var h := ParsedIsHistory(p, events);
    var k := Kept(p, h);
    KeepsWhole(p, k);
    HistoryParses(p, k);
    if k != [] { assert Whole(p, k[|k| - 1]); }
  }

  lemma OneAttempt(p: seq<Provider>, xs: Events)
    requires 0 < |p| && Distinct(p) && Whole(p, xs)
    ensures Parse(p, xs) == Some(Parsing(xs, [], true))
  {
    hide Whole, Parse;
    TwoAttempts(p, [], xs);
    KeepsWhole(p, [xs]);
    assert [] + [xs] == [xs] && [] + xs == xs;
  }

  lemma TwoAttempts(p: seq<Provider>, h: seq<Events>, xs: Events)
    requires 0 < |p| && Distinct(p) && AllWhole(p, h) && Whole(p, xs)
    ensures Parse(p, Flat(h) + xs) == Some(Parsing(Flat(h) + xs, [], true))
    ensures Flat(h + [xs]) == Flat(h) + xs
  {
    hide Whole, Parse, Flat, Kept;
    KeepsWhole(p, h);
    KeepsWhole(p, h + [xs]);
    Pushed(p, h, xs);
    HistoryParses(p, h + [xs]);
    NotAbandoned(p, xs);
  }

  lemma NotAbandoned(p: seq<Provider>, xs: Events)
    requires Whole(p, xs)
    ensures !Abandoned(p, xs)
  {
  }

  /** The parser accepts exactly the events that have a history, and reports that history. */
  lemma ParserMeaning(p: seq<Provider>, events: Events)
    requires 0 < |p| && Distinct(p)
    ensures Parse(p, events).Some? <==> exists h :: History(p, h) && Flat(h) == events
    ensures forall h | History(p, h) && Flat(h) == events :: Parse(p, events) == Some(After(p, h))
  {
    if Parse(p, events).Some? {
      var h := ParsedIsHistory(p, events);
    }
    forall h | History(p, h) && Flat(h) == events ensures Parse(p, events) == Some(After(p, h)) {
      HistoryParses(p, h);
    }
  }
}
