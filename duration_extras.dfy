/**
 * The uptime formatter (`DisplayableDuration`): a duration is split by floor
 * division into days, hours, minutes and seconds, and only the units whose
 * count is non-zero are written, largest first. The duration is taken in
 * whole seconds.
 */
module DurationExtras {

  import opened Wrappers
  import opened Decimal

  const MinuteSeconds: nat := 60
  const HourSeconds: nat := 60 * 60
  const DaySeconds: nat := 24 * 60 * 60

  datatype TimeUnit = Days | Hours | Minutes | Seconds

  /** Seconds in one unit. */
  function UnitSeconds(u: TimeUnit): nat {
    match u
    case Days => DaySeconds
    case Hours => HourSeconds
    case Minutes => MinuteSeconds
    case Seconds => 1
  }

  /** Position of the unit in the output: days first, seconds last. */
  function Rank(u: TimeUnit): nat {
    match u
    case Days => 0
    case Hours => 1
    case Minutes => 2
    case Seconds => 3
  }

  /**
   * What the formatter writes after a unit's count. Days, hours and minutes
   * end in a space; seconds, always written last, does not.
   */
  function UnitSuffix(u: TimeUnit): string {
    match u
    case Days => " days "
    case Hours => " hours "
    case Minutes => " minutes "
    case Seconds => " seconds"
  }

  datatype Units = Units(days: nat, hours: nat, minutes: nat, seconds: nat)

  function CountOf(units: Units, u: TimeUnit): nat {
    match u
    case Days => units.days
    case Hours => units.hours
    case Minutes => units.minutes
    case Seconds => units.seconds
  }

  /** Floor division by 60 and then by 60 again is floor division by 3600, and so on up to days. */
  lemma SplitSeconds(t: nat)
    ensures t / 60 == 60 * (t / 3600) + (t / 60) % 60
    ensures t / 3600 == 24 * (t / 86400) + (t / 3600) % 24
  {
    var q1, r1 := t / 60, t % 60;
    var q2, r2 := q1 / 60, q1 % 60;
    assert t == 3600 * q2 + (60 * r2 + r1);
    assert t / 3600 == q2;
    var q3, r3 := q2 / 24, q2 % 24;
    assert t == 86400 * q3 + (3600 * r3 + 60 * r2 + r1);
    assert t / 86400 == q3;
  }

  /**
   * The floor decomposition of `t` whole seconds: every unit below days is
   * bounded by the next unit up, and the units add back up to `t`.
   */
  function Decompose(t: nat): (units: Units)
    ensures units.seconds < 60 && units.minutes < 60 && units.hours < 24
    ensures units.days * DaySeconds + units.hours * HourSeconds
            + units.minutes * MinuteSeconds + units.seconds == t
  {
    SplitSeconds(t);
    Units(t / DaySeconds,
          (t / HourSeconds) % (DaySeconds / HourSeconds),
          (t / MinuteSeconds) % (HourSeconds / MinuteSeconds),
          t % MinuteSeconds)
  }

  /** The bounds and the sum determine the decomposition: no other split of `t` has them. */
  lemma DecomposeUnique(t: nat, units: Units)
    requires units.seconds < 60 && units.minutes < 60 && units.hours < 24
    requires units.days * DaySeconds + units.hours * HourSeconds
             + units.minutes * MinuteSeconds + units.seconds == t
    ensures Decompose(t) == units
  {
    var low := units.hours * 3600 + units.minutes * 60 + units.seconds;
    assert t == 86400 * units.days + low && 0 <= low < 86400;
    assert t / 86400 == units.days;
    assert t % 86400 == low;
    var mid := units.minutes * 60 + units.seconds;
    assert t / 3600 == 24 * units.days + units.hours by {
      assert t == 3600 * (24 * units.days + units.hours) + mid && 0 <= mid < 3600;
    }
    assert t / 60 == 1440 * units.days + 60 * units.hours + units.minutes by {
      assert t == 60 * (1440 * units.days + 60 * units.hours + units.minutes) + units.seconds;
    }
  }

  datatype Piece = Piece(unit: TimeUnit, count: nat)

  function AllPieces(units: Units): seq<Piece> {
    [Piece(Days, units.days), Piece(Hours, units.hours),
     Piece(Minutes, units.minutes), Piece(Seconds, units.seconds)]
  }

  /** The pieces whose count is not zero, in their original order. */
  function NonZero(ps: seq<Piece>): (r: seq<Piece>)
    ensures |r| <= |ps|
    decreases |ps|
  {
    if ps == [] then []
    else if ps[0].count > 0 then [ps[0]] + NonZero(ps[1..])
    else NonZero(ps[1..])
  }

  /** The units the formatter writes for `t` seconds, with their counts. */
  function Pieces(t: nat): seq<Piece> {
    NonZero(AllPieces(Decompose(t)))
  }

  /** The text written for a list of pieces: each count followed by its unit's suffix. */
  function PiecesText(ps: seq<Piece>): string
    decreases |ps|
  {
    if ps == [] then "" else NatToString(ps[0].count) + UnitSuffix(ps[0].unit) + PiecesText(ps[1..])
  }

  /** What `DisplayableDuration` prints for `t` whole seconds. */
  function DurationText(t: nat): string {
    PiecesText(Pieces(t))
  }

  function TotalSeconds(ps: seq<Piece>): nat
    decreases |ps|
  {
    if ps == [] then 0 else ps[0].count * UnitSeconds(ps[0].unit) + TotalSeconds(ps[1..])
  }

  // ---------------------------------------------------------------------------
  // The formatter itself: four conditional appends to the output.

  method FormatDuration(t: nat) returns (s: string)
    ensures s == DurationText(t)
  {
    var seconds := t % MinuteSeconds;
    var minutes := (t / MinuteSeconds) % (HourSeconds / MinuteSeconds);
    var hours := (t / HourSeconds) % (DaySeconds / HourSeconds);
    var days := t / DaySeconds;

    ghost var all := AllPieces(Decompose(t));
    assert all == AllPieces(Units(days, hours, minutes, seconds));
    ghost var t0, t1, t2, t3 := PieceText(all[0]), PieceText(all[1]), PieceText(all[2]), PieceText(all[3]);
    PieceTextOf(all[0]);
    PieceTextOf(all[1]);
    PieceTextOf(all[2]);
    PieceTextOf(all[3]);

    s := "";
    if days > 0 {
      s := s + (NatToString(days) + " days ");
    }
    assert s == t0;
    if hours > 0 {
      s := s + (NatToString(hours) + " hours ");
      assert s == t0 + t1;
    }
    assert s == t0 + t1;
    if minutes > 0 {
      s := s + (NatToString(minutes) + " minutes ");
      assert s == t0 + t1 + t2;
    }
    assert s == t0 + t1 + t2;
    if seconds > 0 {
      s := s + (NatToString(seconds) + " seconds");
      assert s == t0 + t1 + t2 + t3;
    }
    TextOfFourPieces(all);
  }

  /** The text of one piece once zero counts are dropped. */
  function PieceText(p: Piece): string {
    PiecesText(NonZero([p]))
  }

  lemma PieceTextOf(p: Piece)
    ensures PieceText(p) == if p.count > 0 then NatToString(p.count) + UnitSuffix(p.unit) else ""
  {
    assert [p][1..] == [];
    if p.count > 0 {
      assert NonZero([p]) == [p];
      assert PiecesText([p]) == NatToString(p.count) + UnitSuffix(p.unit) + PiecesText([]);
    } else {
      assert NonZero([p]) == [];
    }
  }

  /** The text of a list of pieces is the text of its first piece, then that of the rest. */
  lemma PeelPiece(ps: seq<Piece>)
    requires ps != []
    ensures PiecesText(NonZero(ps)) == PieceText(ps[0]) + PiecesText(NonZero(ps[1..]))
  {
    PieceTextOf(ps[0]);
    var rest := NonZero(ps[1..]);
    if ps[0].count > 0 {
      assert ([ps[0]] + rest)[1..] == rest;
    } else {
      assert PieceText(ps[0]) + PiecesText(rest) == PiecesText(rest);
    }
  }

  lemma TextOfFourPieces(ps: seq<Piece>)
    requires |ps| == 4
    ensures PiecesText(NonZero(ps))
            == PieceText(ps[0]) + PieceText(ps[1]) + PieceText(ps[2]) + PieceText(ps[3])
  {
    var t0, t1, t2, t3 := PieceText(ps[0]), PieceText(ps[1]), PieceText(ps[2]), PieceText(ps[3]);
    var r1, r2, r3 := PiecesText(NonZero(ps[1..])), PiecesText(NonZero(ps[2..])), PiecesText(NonZero(ps[3..]));
    assert PiecesText(NonZero(ps)) == t0 + r1 by {
      PeelPiece(ps);
    }
    assert r1 == t1 + r2 by {
      PeelPiece(ps[1..]);
      assert ps[1..][1..] == ps[2..];
    }
    assert r2 == t2 + r3 by {
      PeelPiece(ps[2..]);
      assert ps[2..][1..] == ps[3..];
    }
    assert r3 == t3 by {
      PeelPiece(ps[3..]);
      assert ps[3..][1..] == [];
    }
    ConcatAssoc(t0, t1, t2, t3);
  }

  lemma ConcatAssoc(a: string, b: string, c: string, d: string)
    ensures a + (b + (c + d)) == a + b + c + d
  {
  }

  // ---------------------------------------------------------------------------
  // What the written units mean.

  lemma {:induction false} NonZeroTotal(ps: seq<Piece>)
    ensures TotalSeconds(NonZero(ps)) == TotalSeconds(ps)
    decreases |ps|
  {
    if ps != [] {
      NonZeroTotal(ps[1..]);
    }
  }

  /** The counts written for `t` add back up to `t`. */
  lemma PiecesAddUp(t: nat)
    ensures TotalSeconds(Pieces(t)) == t
  {
    var all := AllPieces(Decompose(t));
    NonZeroTotal(all);
    assert TotalSeconds(all[3..]) == all[3].count;
    assert TotalSeconds(all[2..]) == all[2].count * 60 + TotalSeconds(all[3..]);
    assert TotalSeconds(all[1..]) == all[1].count * 3600 + TotalSeconds(all[2..]);
  }

  lemma {:induction false} NonZeroMembers(ps: seq<Piece>, p: Piece)
    ensures p in NonZero(ps) <==> p in ps && p.count > 0
    decreases |ps|
  {
    if ps != [] {
      NonZeroMembers(ps[1..], p);
    }
  }

  predicate StrictlyRanked(ps: seq<Piece>) {
    forall i, j :: 0 <= i < j < |ps| ==> Rank(ps[i].unit) < Rank(ps[j].unit)
  }

  lemma {:induction false} NonZeroRanked(ps: seq<Piece>)
    requires StrictlyRanked(ps)
    ensures StrictlyRanked(NonZero(ps))
    decreases |ps|
  {
    if ps != [] {
      NonZeroRanked(ps[1..]);
      if ps[0].count > 0 {
        var r := NonZero(ps);
        forall j | 1 <= j < |r| ensures Rank(r[0].unit) < Rank(r[j].unit) {
          NonZeroMembers(ps[1..], r[j]);
        }
      }
    }
  }

  /**
   * Every written unit has a non-zero count; a unit is written exactly when
   * its count in the decomposition is non-zero, and then with that count; and
   * the units come largest first.
   */
  lemma PiecesShape(t: nat)
    ensures forall i :: 0 <= i < |Pieces(t)| ==> Pieces(t)[i].count > 0
    ensures forall u: TimeUnit :: (exists i :: 0 <= i < |Pieces(t)| && Pieces(t)[i].unit == u)
                                   <==> CountOf(Decompose(t), u) > 0
    ensures forall i :: 0 <= i < |Pieces(t)| ==> Pieces(t)[i].count == CountOf(Decompose(t), Pieces(t)[i].unit)
    ensures StrictlyRanked(Pieces(t))
  {
    var all := AllPieces(Decompose(t));
    var ps := Pieces(t);
    forall i | 0 <= i < |ps| ensures ps[i].count > 0 && ps[i] in all {
      NonZeroMembers(all, ps[i]);
    }
    forall u: TimeUnit
      ensures (exists i :: 0 <= i < |ps| && ps[i].unit == u) <==> CountOf(Decompose(t), u) > 0
    {
      var p := Piece(u, CountOf(Decompose(t), u));
      NonZeroMembers(all, p);
      if CountOf(Decompose(t), u) > 0 {
        var i :| 0 <= i < |ps| && ps[i] == p;
      }
    }
    NonZeroRanked(all);
  }

  /** Nothing is written for a zero duration, and something for any other. */
  lemma DurationTextEmptyIffZero(t: nat)
    ensures DurationText(t) == "" <==> t == 0
  {
    PiecesAddUp(t);
    if t != 0 {
      var ps := Pieces(t);
      assert ps != [];
      assert |NatToString(ps[0].count)| > 0;
    }
  }

  // ---------------------------------------------------------------------------
  // Reading the text back.

  /** Splits off the leading run of digits. */
  function TakeDigits(s: string): (r: (string, string))
    ensures r.0 + r.1 == s && AllDigits(r.0)
    ensures r.1 != [] ==> !IsDigit(r.1[0])
    decreases |s|
  {
    if s == [] || !IsDigit(s[0]) then ([], s)
    else
      var (d, rest) := TakeDigits(s[1..]);
      assert ([s[0]] + d) + rest == [s[0]] + (d + rest);
      assert forall i :: 1 <= i < |d| + 1 ==> ([s[0]] + d)[i] == d[i - 1];
      ([s[0]] + d, rest)
  }

  lemma {:induction false} TakeDigitsOf(d: string, x: string)
    requires AllDigits(d)
    requires x == [] || !IsDigit(x[0])
    ensures TakeDigits(d + x) == (d, x)
    decreases |d|
  {
    if d == [] {
      assert d + x == x;
    } else {
      assert (d + x)[0] == d[0];
      assert (d + x)[1..] == d[1..] + x;
      TakeDigitsOf(d[1..], x);
      assert [d[0]] + d[1..] == d;
    }
  }

  /** The unit whose suffix starts `s`, if any. */
  function UnitAtStart(s: string): (r: Option<TimeUnit>)
    ensures r.Some? ==> UnitSuffix(r.value) <= s
  {
    if UnitSuffix(Days) <= s then Some(Days)
    else if UnitSuffix(Hours) <= s then Some(Hours)
    else if UnitSuffix(Minutes) <= s then Some(Minutes)
    else if UnitSuffix(Seconds) <= s then Some(Seconds)
    else None
  }

  lemma UnitAtStartOf(u: TimeUnit, rest: string)
    ensures UnitAtStart(UnitSuffix(u) + rest) == Some(u)
  {
    var s := UnitSuffix(u) + rest;
    assert s[1] == UnitSuffix(u)[1];
  }

  /** Reads a formatted duration back into its pieces. */
  function ParsePieces(s: string): Option<seq<Piece>>
    decreases |s|
  {
    if s == [] then Some([])
    else
      var (digits, rest) := TakeDigits(s);
      if digits == [] then None
      else
        match UnitAtStart(rest)
        case None => None
        case Some(u) =>
          match ParsePieces(rest[|UnitSuffix(u)|..])
          case None => None
          case Some(ps) => Some([Piece(u, ParseNat(digits))] + ps)
  }

  /** Any list of pieces is read back from its text exactly. */
  lemma {:induction false} ParsePiecesText(ps: seq<Piece>)
    ensures ParsePieces(PiecesText(ps)) == Some(ps)
    decreases |ps|
  {
    if ps != [] {
      var u := ps[0].unit;
      var d := NatToString(ps[0].count);
      var tail := PiecesText(ps[1..]);
      var x := UnitSuffix(u) + tail;
      var s := PiecesText(ps);
      assert s == d + x;
      assert x[0] == ' ';
      TakeDigitsOf(d, x);
      UnitAtStartOf(u, tail);
      assert x[|UnitSuffix(u)|..] == tail;
      ParsePiecesText(ps[1..]);
      ParseNatToString(ps[0].count);
      assert ParsePieces(s) == Some([Piece(u, ParseNat(d))] + ps[1..]);
      assert [Piece(u, ps[0].count)] + ps[1..] == ps;
    }
  }

  /** The printed uptime names exactly the non-zero units, in order, with their counts. */
  lemma DurationTextRoundTrip(t: nat)
    ensures ParsePieces(DurationText(t)) == Some(Pieces(t))
  {
    ParsePiecesText(Pieces(t));
  }

  /** Different durations (in whole seconds) are printed differently. */
  lemma DurationTextInjective(t1: nat, t2: nat)
    requires DurationText(t1) == DurationText(t2)
    ensures t1 == t2
  {
    DurationTextRoundTrip(t1);
    DurationTextRoundTrip(t2);
    PiecesAddUp(t1);
    PiecesAddUp(t2);
  }

  lemma PieceTextOfOne(u: TimeUnit)
    ensures PieceText(Piece(u, 1)) == "1" + UnitSuffix(u)
  {
    PieceTextOf(Piece(u, 1));
    assert NatToString(1) == "1";
  }

  lemma DurationTextOneOfEach()
    ensures DurationText(90061) == "1 days 1 hours 1 minutes 1 seconds"
  {
    var units := Units(1, 1, 1, 1);
    DecomposeUnique(90061, units);
    TextOfFourPieces(AllPieces(units));
    PieceTextOfOne(Days);
    PieceTextOfOne(Hours);
    PieceTextOfOne(Minutes);
    PieceTextOfOne(Seconds);
    FourUnitsText();
  }

  lemma FourUnitsText()
    ensures ("1" + UnitSuffix(Days)) + ("1" + UnitSuffix(Hours)) + ("1" + UnitSuffix(Minutes))
            + ("1" + UnitSuffix(Seconds)) == "1 days 1 hours 1 minutes 1 seconds"
  {
  }

  lemma DurationTextOneHour()
    ensures DurationText(3600) == "1 hours "
  {
    var units := Units(0, 1, 0, 0);
    DecomposeUnique(3600, units);
    TextOfFourPieces(AllPieces(units));
    PieceTextOf(Piece(Days, 0));
    PieceTextOfOne(Hours);
    PieceTextOf(Piece(Minutes, 0));
    PieceTextOf(Piece(Seconds, 0));
  }
}
