/** Boarding-pass identifiers `BP###`: the max-scan-and-increment generator used at check-in. */
module BoardingPassIds {
  import opened Wrappers
  import opened Text

  /** `boarding_pass_id ~ '^BP[0-9]{3}$'` */
  predicate Matches(id: string)
  {
    |id| == 5 && id[0] == 'B' && id[1] == 'P' && AllDigits(id[2..])
  }

  /** "BP" followed by one or more digits, of any count. */
  predicate Numbered(id: string)
  {
    |id| >= 3 && id[0] == 'B' && id[1] == 'P' && AllDigits(id[2..])
  }

  /** Which ids a scan considers: the three-digit pattern, or every numbered id. */
  predicate Considered(strict: bool, id: string)
  {
    if strict then Matches(id) else Numbered(id)
  }

  /** The number an id carries, as `int(last_id[2:])` reads it. */
  function Number(id: string): nat
    requires Numbered(id)
  {
    ParseDigits(id[2..])
  }

  /** `f"BP{num:03d}"` */
  function Format(num: nat): (id: string)
    ensures |id| >= 5 && id[..2] == "BP" && Numbered(id)
  {
    var digits := NatToString(num);
    var padded := ZeroPad(digits, 3);
    assert padded == Zeros(|padded| - |digits|) + digits;
    ParseLeadingZeros(|padded| - |digits|, digits);
    "BP" + padded
  }

  /** Formatting then reading back the number is the identity, and the result
      keeps the three-digit shape exactly for numbers below 1000. */
  lemma FormatRoundTrip(num: nat)
    ensures Number(Format(num)) == num
    ensures Matches(Format(num)) <==> num < 1000
  {
    var digits := NatToString(num);
    var padded := ZeroPad(digits, 3);
    assert Format(num)[2..] == padded;
    ParseLeadingZeros(|padded| - |digits|, digits);
    NumeralLength(num);
  }

  /** The largest number among the considered ids, if any is considered. */
  function MaxNumber(ids: seq<string>, strict: bool): (r: Option<nat>)
    ensures r.None? <==> forall i :: 0 <= i < |ids| ==> !Considered(strict, ids[i])
    ensures r.Some? ==> exists i :: 0 <= i < |ids| && Considered(strict, ids[i]) && Number(ids[i]) == r.value
    ensures r.Some? ==> forall i :: 0 <= i < |ids| && Considered(strict, ids[i]) ==> Number(ids[i]) <= r.value
  {
    if ids == [] then None
    else
      var rest := MaxNumber(ids[1..], strict);
      assert forall i :: 1 <= i < |ids| ==> ids[i] == ids[1..][i - 1];
      if !Considered(strict, ids[0]) then rest
      else if rest.Some? && rest.value >= Number(ids[0]) then rest
      else Some(Number(ids[0]))
  }

  /** The scan shared by the generator and its corrected form: one past the
      largest considered number, or 1 when nothing is considered. */
  function NextAfter(ids: seq<string>, strict: bool): string
  {
    match MaxNumber(ids, strict)
    case None => Format(1)
    case Some(m) => Format(m + 1)
  }

  /** `get_next_boarding_pass_id`: the largest `BP###` id plus one, zero-padded
      to three digits; "BP001" when no id has the pattern. */
  function NextBoardingPassId(ids: seq<string>): (r: string)
    ensures (forall i :: 0 <= i < |ids| ==> !Matches(ids[i])) ==> r == "BP001"
    ensures Numbered(r) && Number(r) >= 1
    ensures forall i :: 0 <= i < |ids| && Matches(ids[i]) ==> Number(ids[i]) < Number(r)
    ensures Number(r) == 1 || exists i :: 0 <= i < |ids| && Matches(ids[i]) && Number(ids[i]) == Number(r) - 1
    ensures Matches(r) ==> r !in ids
  {
    NextAfterFacts(ids, true);
    NextAfter(ids, true)
  }

  /** What the scan guarantees: the result exceeds every considered number by
      the least amount, and is fresh among the considered ids. */
  lemma NextAfterFacts(ids: seq<string>, strict: bool)
    ensures var r := NextAfter(ids, strict);
      && Numbered(r) && Number(r) >= 1
      && ((forall i :: 0 <= i < |ids| ==> !Considered(strict, ids[i])) ==> r == "BP001")
      && (forall i :: 0 <= i < |ids| && Considered(strict, ids[i]) ==> Number(ids[i]) < Number(r))
      && (Number(r) == 1 || exists i :: 0 <= i < |ids| && Considered(strict, ids[i]) && Number(ids[i]) == Number(r) - 1)
      && (Considered(strict, r) ==> r !in ids)
  {
    var r := NextAfter(ids, strict);
    match MaxNumber(ids, strict)
    case None =>
      FormatRoundTrip(1);
      assert Format(1) == "BP001";
    case Some(m) =>
      FormatRoundTrip(m + 1);
      if Considered(strict, r) {
        forall i | 0 <= i < |ids|
          ensures ids[i] != r
        {
          if Considered(strict, ids[i]) {
            assert Number(ids[i]) <= m;
          }
        }
      }
  }

  /** While every `BP###` id is below 999 the generator's result keeps the
      pattern and is fresh among all ids. */
  lemma NextIdFreshBelowOverflow(ids: seq<string>)
    requires forall i :: 0 <= i < |ids| && Matches(ids[i]) ==> Number(ids[i]) < 999
    ensures Matches(NextBoardingPassId(ids))
    ensures NextBoardingPassId(ids) !in ids
  {
    NextAfterFacts(ids, true);
    match MaxNumber(ids, true)
    case None =>
      FormatRoundTrip(1);
    case Some(m) =>
      FormatRoundTrip(m + 1);
  }

  /** Once BP999 exists the generator yields "BP1000", which the pattern no longer matches. */
  lemma {:induction false} NextIdAfter999(ids: seq<string>)
    requires "BP999" in ids
    ensures NextBoardingPassId(ids) == "BP1000"
    ensures !Matches(NextBoardingPassId(ids))
  {
    MaxIs999(ids);
    assert NextBoardingPassId(ids) == Format(1000);
    FormatOf1000();
  }

  /** BP999 is the largest number the three-digit pattern can carry. */
  lemma MaxIs999(ids: seq<string>)
    requires "BP999" in ids
    ensures MaxNumber(ids, true) == Some(999)
  {
    var i :| 0 <= i < |ids| && ids[i] == "BP999";
    NumberOf999();
    assert Considered(true, ids[i]) && Number(ids[i]) == 999;
    var max := MaxNumber(ids, true);
    var j :| 0 <= j < |ids| && Considered(true, ids[j]) && Number(ids[j]) == max.value;
    PatternBelow1000(ids[j]);
  }

  lemma NumberOf999()
    ensures Matches("BP999") && Number("BP999") == 999
  {
    assert "BP999"[2..] == "999";
    ParseThree("999");
  }

  lemma FormatOf1000()
    ensures Format(1000) == "BP1000"
  {
    assert NatToString(1) == "1";
    assert NatToString(10) == "10";
    assert NatToString(100) == "100";
    assert NatToString(1000) == "1000";
  }

  /** Three digits carry a number below 1000. */
  lemma PatternBelow1000(id: string)
    requires Matches(id)
    ensures Number(id) < 1000
  {
    ParseThree(id[2..]);
  }

  /** Positional value of a three-digit numeral. */
  lemma ParseThree(x: string)
    requires |x| == 3 && AllDigits(x)
    ensures ParseDigits(x) == 100 * DigitValue(x[0]) + 10 * DigitValue(x[1]) + DigitValue(x[2])
  {
    var two := x[..2];
    assert two[..1] == x[..1] && two[1] == x[1];
    assert ParseDigits(x) == ParseDigits(two) * 10 + DigitValue(x[2]);
    assert ParseDigits(two) == ParseDigits(x[..1]) * 10 + DigitValue(x[1]);
    assert x[..1][..0] == [];
    assert ParseDigits(x[..1]) == DigitValue(x[0]);
  }

  /** The corrected generator: scans every numbered id, whatever its width,
      so its result never collides with an existing id. */
  function NextBoardingPassIdFixed(ids: seq<string>): (r: string)
    ensures r !in ids
    ensures Numbered(r) && Number(r) >= 1
    ensures forall i :: 0 <= i < |ids| && Numbered(ids[i]) ==> Number(ids[i]) < Number(r)
  {
    NextAfterFacts(ids, false);
    NextAfter(ids, false)
  }

  /** Where every numbered id has three digits and none reaches 999, the
      corrected generator agrees with the original. */
  lemma {:induction false} FixedAgreesBelowOverflow(ids: seq<string>)
    requires forall i :: 0 <= i < |ids| && Numbered(ids[i]) ==> Matches(ids[i])
    ensures NextBoardingPassIdFixed(ids) == NextBoardingPassId(ids)
  {
    assert forall i :: 0 <= i < |ids| ==> (Considered(true, ids[i]) <==> Considered(false, ids[i]));
    SameMaxForSameSelection(ids);
  }

  lemma {:induction false} SameMaxForSameSelection(ids: seq<string>)
    requires forall i :: 0 <= i < |ids| ==> (Considered(true, ids[i]) <==> Considered(false, ids[i]))
    ensures MaxNumber(ids, true) == MaxNumber(ids, false)
  {
    if ids != [] {
      assert forall i :: 1 <= i < |ids| ==> ids[i] == ids[1..][i - 1];
      SameMaxForSameSelection(ids[1..]);
    }
  }

  /** Code-point (C collation) ordering of strings, as `ORDER BY ... DESC` compares ids. */
  predicate LexLess(a: string, b: string)
    decreases |a|
  {
    if a == [] then b != []
    else b != [] && (a[0] < b[0] || (a[0] == b[0] && LexLess(a[1..], b[1..])))
  }

  /** On ids of the pattern the string order is the numeric order, so the
      `ORDER BY boarding_pass_id DESC LIMIT 1` row is the id with the largest number. */
  lemma PatternOrderIsNumeric(a: string, b: string)
    requires Matches(a) && Matches(b)
    ensures LexLess(a, b) <==> Number(a) < Number(b)
  {
    var x, y := a[2..], b[2..];
    ParseThree(x);
    ParseThree(y);
    assert a[1..][1..] == x && b[1..][1..] == y;
    assert LexLess(a, b) == LexLess(x, y);
    assert LexLess(x, y) == (x[0] < y[0] || (x[0] == y[0] && LexLess(x[1..], y[1..])));
    assert LexLess(x[1..], y[1..]) == (x[1] < y[1] || (x[1] == y[1] && LexLess(x[2..], y[2..])));
    assert LexLess(x[2..], y[2..]) == (x[2] < y[2]);
  }
}
