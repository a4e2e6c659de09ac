/** The dates a collection is synced for, and the one band a wider request adds. */
module Scopes {
  import opened Wrappers
  import opened Text

  /** A floor, inclusive, and a ceiling, exclusive; a missing bound is open. */
  datatype Scope = Scope(since: Option<string>, until: Option<string>) {

    predicate Contains(date: Option<string>) {
      date.None? || date.value == "" || Holds(date.value)
    }

    predicate Holds(date: string) {
      && (since.None? || AtMost(since.value, date))
      && (until.None? || Less(date, until.value))
    }

    predicate Covers(other: Scope) {
      && (since.None? || (other.since.Some? && AtMost(since.value, other.since.value)))
      && (until.None? || (other.until.Some? && AtMost(other.until.value, until.value)))
    }

    /** Whether `wanted` starts under this scope's floor. */
    predicate UnderFloor(wanted: Scope) {
      since.Some? && (wanted.since.None? || Less(wanted.since.value, since.value))
    }

    /** Whether `wanted` ends over this scope's ceiling. */
    predicate OverCeiling(wanted: Scope) {
      until.Some? && (wanted.until.None? || Less(until.value, wanted.until.value))
    }

    /** The band `wanted` reaches outside this scope on its one side, and the span the two cover. */
    function Band(wanted: Scope): Option<(Scope, Scope)> {
      if Covers(wanted) then None
      else match (UnderFloor(wanted), OverCeiling(wanted))
        case (true, false) =>
          if wanted.until.Some? && since.Some? && Less(wanted.until.value, since.value) then None
          else Some((Scope(wanted.since, since), Scope(wanted.since, until)))
        case (false, true) =>
          if wanted.since.Some? && until.Some? && Less(until.value, wanted.since.value) then None
          else Some((Scope(until, wanted.until), Scope(since, wanted.until)))
        case _ => None
    }
  }

  // ---------- The order on texts, as the bounds use it ----------

  lemma Chain(a: string, b: string, c: string)
    ensures AtMost(a, b) && AtMost(b, c) ==> AtMost(a, c)
    ensures AtMost(a, b) && Less(b, c) ==> Less(a, c)
    ensures Less(a, b) && AtMost(b, c) ==> Less(a, c)
    ensures Less(a, b) ==> AtMost(a, b)
    ensures AtMost(a, a)
  {
    LessIrreflexive(a);
    LessTotal(a, b);
    LessTotal(b, c);
    if AtMost(a, b) && AtMost(b, c) {
      AtMostTransitive(a, b, c);
    }
    if AtMost(a, b) && Less(b, c) {
      AtMostThenLess(a, b, c);
    }
    if Less(a, b) && Less(b, c) {
      LessTransitive(a, b, c);
    }
  }

  /** Chain over every text, which is what the interval lemmas need of the order. */
  lemma Ordered()
    ensures forall a, b, c :: AtMost(a, b) && AtMost(b, c) ==> AtMost(a, c)
    ensures forall a, b, c :: AtMost(a, b) && Less(b, c) ==> Less(a, c)
    ensures forall a, b, c :: Less(a, b) && AtMost(b, c) ==> Less(a, c)
    ensures forall a, b :: Less(a, b) ==> AtMost(a, b)
    ensures forall a :: AtMost(a, a)
  {
    forall a, b, c
      ensures AtMost(a, b) && AtMost(b, c) ==> AtMost(a, c)
      ensures AtMost(a, b) && Less(b, c) ==> Less(a, c)
      ensures Less(a, b) && AtMost(b, c) ==> Less(a, c)
      ensures Less(a, b) ==> AtMost(a, b)
      ensures AtMost(a, a)
    {
      Chain(a, b, c);
    }
  }

  /** A message with no usable date is in every scope, and a dated one between the bounds it has. */
  lemma ContainsIff(scope: Scope, date: string)
    ensures scope.Contains(None) && scope.Contains(Some(""))
    ensures date != "" ==>
      (scope.Contains(Some(date)) <==>
       && (scope.since.Some? ==> Less(scope.since.value, date) || scope.since.value == date)
       && (scope.until.Some? ==> Less(date, scope.until.value)))
  {
    if scope.since.Some? {
      LessTotal(scope.since.value, date);
      LessIrreflexive(date);
    }
  }

  // ---------- Covering ----------

  /** A checkpoint made under a covering scope serves the covered one, for every date. */
  lemma CoversContains(scope: Scope, other: Scope, date: Option<string>)
    requires scope.Covers(other) && other.Contains(date)
    ensures scope.Contains(date)
  {
    Ordered();
    hide Less;
  }

  /** A scope that holds some text. */
  predicate Inhabited(scope: Scope) {
    match (scope.since, scope.until)
    case (_, None) => true
    case (None, Some(until)) => until != ""
    case (Some(since), Some(until)) => Less(since, until)
  }

  /** Its first text. */
  function Floor(scope: Scope): string {
    if scope.since.Some? then scope.since.value else ""
  }

  lemma NothingUnderEmpty()
    ensures forall a: string :: AtMost("", a) && (Less("", a) <==> a != "")
  {
  }

  lemma InhabitedIff(scope: Scope)
    ensures Inhabited(scope) <==> scope.Holds(Floor(scope))
    ensures forall date :: scope.Holds(date) ==> AtMost(Floor(scope), date) && Inhabited(scope)
  {
    Ordered();
    NothingUnderEmpty();
    hide Less;
  }

  /** A floor of "" holds nothing back, yet is a floor, and none is not over it. */
  predicate NominalFloor(scope: Scope, other: Scope) {
    scope.since == Some("") && other.since.None?
  }

  /**
    A scope covers an inhabited one exactly when it holds every text the other holds, but
    for a floor of "", which the bounds tell from none though the texts do not.
  */
  lemma CoversIff(scope: Scope, other: Scope)
    requires Inhabited(other)
    ensures scope.Covers(other) <==>
      (forall date :: other.Holds(date) ==> scope.Holds(date)) && !NominalFloor(scope, other)
  {
    Ordered();
    NothingUnderEmpty();
    InhabitedIff(other);
    hide Less;
    assert scope.until.Some? ==> !scope.Holds(scope.until.value);
    if (forall date :: other.Holds(date) ==> scope.Holds(date)) && !NominalFloor(scope, other) {
      assert scope.Holds(Floor(other));
    }
  }

  // ---------- Widening ----------

  /** The band and the old scope tile the span: together it, and never a date twice. */
  lemma BandTiles(scope: Scope, wanted: Scope, date: string)
    requires scope.Band(wanted).Some? && date != ""
    ensures var (band, span) := scope.Band(wanted).value;
      && (span.Contains(Some(date)) <==> scope.Contains(Some(date)) || band.Contains(Some(date)))
      && !(scope.Contains(Some(date)) && band.Contains(Some(date)))
  {
    Ordered();
    hide Less;
  }

  /** The span serves both the old scope and the one wanted. */
  lemma SpanCovers(scope: Scope, wanted: Scope)
    requires scope.Band(wanted).Some?
    ensures scope.Band(wanted).value.1.Covers(wanted) && scope.Band(wanted).value.1.Covers(scope)
  {
    Ordered();
    hide Less;
  }

  /** A text both scopes miss although it lies between texts of theirs. */
  ghost predicate LeavesGap(a: Scope, b: Scope) {
    exists x, date, y :: GapAt(a, b, x, date, y)
  }

  ghost predicate GapAt(a: Scope, b: Scope, x: string, date: string, y: string) {
    && ((a.Holds(x) && b.Holds(y)) || (b.Holds(x) && a.Holds(y)))
    && AtMost(x, date) && AtMost(date, y) && !a.Holds(date) && !b.Holds(date)
  }

  /** Whether the request holds a text under the scope's first. */
  ghost predicate HoldsUnder(scope: Scope, wanted: Scope) {
    exists date :: wanted.Holds(date) && Less(date, Floor(scope))
  }

  /** Whether the request holds a text no text of the scope reaches. */
  ghost predicate HoldsOver(scope: Scope, wanted: Scope) {
    exists date :: wanted.Holds(date) && Less(Floor(scope), date) && !scope.Holds(date)
  }

  lemma UnderIff(scope: Scope, wanted: Scope)
    requires Inhabited(wanted)
    ensures scope.UnderFloor(wanted) <==> HoldsUnder(scope, wanted) || NominalFloor(scope, wanted)
  {
    Ordered();
    NothingUnderEmpty();
    InhabitedIff(wanted);
    hide Less;
    if scope.UnderFloor(wanted) && !NominalFloor(scope, wanted) {
      assert wanted.Holds(Floor(wanted)) && Less(Floor(wanted), Floor(scope));
    }
  }

  lemma OverIff(scope: Scope, wanted: Scope)
    requires Inhabited(scope) && Inhabited(wanted)
    ensures scope.OverCeiling(wanted) <==> HoldsOver(scope, wanted)
  {
    Ordered();
    NothingUnderEmpty();
    InhabitedIff(scope);
    InhabitedIff(wanted);
    hide Less;
    if scope.OverCeiling(wanted) {
      var ceiling := scope.until.value;
      var date := if AtMost(ceiling, Floor(wanted)) then Floor(wanted) else ceiling;
      assert wanted.Holds(date) && Less(Floor(scope), date) && !scope.Holds(date);
    }
  }

  /** Whether `low` ends before `high` starts. */
  predicate Apart(low: Scope, high: Scope) {
    low.until.Some? && high.since.Some? && Less(low.until.value, high.since.value)
  }

  lemma GapIff(a: Scope, b: Scope)
    requires Inhabited(a) && Inhabited(b)
    ensures LeavesGap(a, b) <==> Apart(a, b) || Apart(b, a)
  {
    Ordered();
    NothingUnderEmpty();
    InhabitedIff(a);
    InhabitedIff(b);
    hide Less;
    if Apart(a, b) {
      assert GapAt(a, b, Floor(a), a.until.value, b.since.value);
    }
    if Apart(b, a) {
      assert GapAt(a, b, Floor(b), b.until.value, a.since.value);
    }
  }

  /** Every scope, even one holding nothing: no band exactly when inside, out on both sides or apart. */
  lemma BandNoneByBounds(scope: Scope, wanted: Scope)
    ensures scope.Band(wanted).None? <==>
      || scope.Covers(wanted)
      || (scope.UnderFloor(wanted) && scope.OverCeiling(wanted))
      || Apart(wanted, scope) || Apart(scope, wanted)
  {
    Ordered();
    hide Less;
  }

  /** The same of scopes that hold something, in the texts they hold. */
  lemma BandNoneIff(scope: Scope, wanted: Scope)
    requires Inhabited(scope) && Inhabited(wanted)
    ensures scope.Band(wanted).None? <==>
      || ((forall date :: wanted.Holds(date) ==> scope.Holds(date)) && !NominalFloor(scope, wanted))
      || ((HoldsUnder(scope, wanted) || NominalFloor(scope, wanted)) && HoldsOver(scope, wanted))
      || LeavesGap(scope, wanted)
  {
    CoversIff(scope, wanted);
    UnderIff(scope, wanted);
    OverIff(scope, wanted);
    GapIff(scope, wanted);
    BandNoneByBounds(scope, wanted);
  }
}
