/** The list of saved recordings: one table row per recording, in the
    order given, with the duration shown as `minutes:seconds`. Durations
    are exact reals; JavaScript's `Math.floor`, `%` on numbers and
    `Number.prototype.toString` on integers are written out. */
module RecordingsList {
  import opened Outcomes
  import opened Text

  /** A saved recording as the storage service describes it. */
  datatype Recording = Recording(publicId: string, filename: string, secureUrl: string, createdAt: string, duration: real)

  // ---------------------------------------------------------------------
  // Number formatting
  // ---------------------------------------------------------------------

  /** The truncation toward zero inside JavaScript's `%` on numbers (see
      `JsRem`): rounds toward zero. */
  function Trunc(x: real): (t: int)
    ensures x >= 0.0 ==> t as real <= x < t as real + 1.0
    ensures x < 0.0 ==> t as real - 1.0 < x <= t as real
  {
    if x >= 0.0 then x.Floor else -((-x).Floor)
  }

  /** JavaScript's `x % m` on numbers: the remainder of the division
      truncated toward zero, so it takes the sign of `x`. */
  function JsRem(x: real, m: real): real
    requires m != 0.0
  {
    x - m * (Trunc(x / m) as real)
  }

  /** `String(i)` for an integer: its decimal numeral, with a leading `-`
      when negative. */
  function IntToDecimal(i: int): string {
    if i < 0 then "-" + NatToDecimal(-i) else NatToDecimal(i)
  }

  /** The text of an integer starts with `-` exactly when it is negative,
      and the digits after the sign read back as its absolute value. */
  lemma IntToDecimalReadsBack(i: int)
    ensures var r := IntToDecimal(i);
      |r| >= 1 && (r[0] == '-' <==> i < 0)
      && var digits := if i < 0 then r[1..] else r;
         IsDigits(digits) && DecimalValue(digits) == (if i < 0 then -i else i)
  {
    var n: nat := if i < 0 then -i else i;
    DecimalRoundTrip(n);
    var r := IntToDecimal(i);
    if i < 0 {
      assert r[1..] == NatToDecimal(n);
    } else {
      assert IsDigit(r[0]);
    }
  }

  /** `Math.floor(seconds / 60)`. */
  function Minutes(seconds: real): int {
    (seconds / 60.0).Floor
  }

  /** `Math.floor(seconds % 60)`. */
  function RemainingSeconds(seconds: real): int {
    JsRem(seconds, 60.0).Floor
  }

  /** `formatDuration`: the minutes unpadded, a colon, and the remaining
      seconds padded to two characters with `0`. */
  function FormatDuration(seconds: real): string {
    IntToDecimal(Minutes(seconds)) + ":" + PadStart(IntToDecimal(RemainingSeconds(seconds)), 2, '0')
  }

  /** For a non-negative duration the two components split its whole
      seconds: the remaining seconds lie in 0..59 and
      `minutes * 60 + seconds` is the duration rounded down. */
  lemma {:induction false} DurationComponents(seconds: real)
    requires seconds >= 0.0
    ensures 0 <= Minutes(seconds) && 0 <= RemainingSeconds(seconds) < 60
    ensures Minutes(seconds) * 60 + RemainingSeconds(seconds) == seconds.Floor
  {
    var m := Minutes(seconds);
    assert seconds / 60.0 >= 0.0;
    assert Trunc(seconds / 60.0) == m;
    var r := JsRem(seconds, 60.0);
    assert r == seconds - 60.0 * (m as real);
    FloorBounds(seconds / 60.0, m);
    assert 0.0 <= r < 60.0;
    FloorShift(r, 60 * m);
    assert r + (60 * m) as real == seconds;
  }

  /** `m` is the floor of `x`, and `x` lies in `[m, m + 1)`, scaled by 60. */
  lemma FloorBounds(x: real, m: int)
    requires x >= 0.0 && m == x.Floor
    ensures 0 <= m
    ensures 0.0 <= 60.0 * x - 60.0 * (m as real) < 60.0
  {
  }

  /** Adding an integer to a real adds it to the floor. */
  lemma FloorShift(r: real, k: int)
    ensures (r + k as real).Floor == r.Floor + k
  {
  }

  /** The text of `FormatDuration(s)` for a non-negative `s`: the minutes
      numeral unpadded before the colon, exactly two digits after it, whose
      values give back the whole seconds of `s`, the seconds below 60. */
  lemma DurationText(seconds: real)
    requires seconds >= 0.0
    ensures var r := FormatDuration(seconds);
      |r| >= 4 && r[|r| - 3] == ':'
      && r[..|r| - 3] == NatToDecimal(Minutes(seconds))
      && IsDigits(r[|r| - 2..]) && DecimalValue(r[|r| - 2..]) < 60
      && DecimalValue(r[..|r| - 3]) * 60 + DecimalValue(r[|r| - 2..]) == seconds.Floor
  {
    DurationComponents(seconds);
    var m, sec := Minutes(seconds), RemainingSeconds(seconds);
    assert FormatDuration(seconds) == NatToDecimal(m) + ":" + PadStart(NatToDecimal(sec), 2, '0');
    MinutesSecondsText(m, sec);
  }

  /** `m:ss` for naturals `m` and `sec < 60`: `m` unpadded, `sec` as two
      digits. */
  lemma MinutesSecondsText(m: nat, sec: nat)
    requires sec < 60
    ensures var r := NatToDecimal(m) + ":" + PadStart(NatToDecimal(sec), 2, '0');
      |r| >= 4 && r[|r| - 3] == ':'
      && r[..|r| - 3] == NatToDecimal(m)
      && IsDigits(r[|r| - 2..]) && DecimalValue(r[|r| - 2..]) == sec
      && DecimalValue(r[..|r| - 3]) == m
  {
    var mm := NatToDecimal(m);
    var ss := PadStart(NatToDecimal(sec), 2, '0');
    NumeralWidth(sec);
    assert |ss| == 2;
    ZeroPadValue(NatToDecimal(sec), 2);
    DecimalRoundTrip(m);
    DecimalRoundTrip(sec);
    ColonFields(mm, ss);
  }

  // ---------------------------------------------------------------------
  // The list view
  // ---------------------------------------------------------------------

  /** One table row: its React key, the filename, the date cell (`None`
      while the component has not mounted on the client, where a skeleton
      is shown; the created-at value otherwise), the duration text and the
      audio source. */
  datatype Row = Row(key: string, filename: string, date: Option<string>, duration: string, source: string)

  datatype ListView = NoRecordings | Table(rows: seq<Row>)

  function RowOf(rec: Recording, isClient: bool): Row {
    Row(rec.publicId, rec.filename, if isClient then Some(rec.createdAt) else None,
        FormatDuration(rec.duration), rec.secureUrl)
  }

  /** `recordings.map(...)`: one row per recording. */
  function Rows(recs: seq<Recording>, isClient: bool): (rows: seq<Row>)
    ensures |rows| == |recs|
    ensures forall i :: 0 <= i < |recs| ==> rows[i] == RowOf(recs[i], isClient)
  {
    seq(|recs|, i requires 0 <= i < |recs| => RowOf(recs[i], isClient))
  }

  /** `RecordingsList`: the "no recordings" message for an empty list,
      otherwise a table with one row per recording, in the given order. */
  function RenderRecordings(recs: seq<Recording>, isClient: bool): (v: ListView)
    ensures v.NoRecordings? <==> |recs| == 0
    ensures v.Table? ==> |v.rows| == |recs|
    ensures v.Table? ==> forall i :: 0 <= i < |recs| ==> v.rows[i] == RowOf(recs[i], isClient)
  {
    if |recs| == 0 then NoRecordings else Table(Rows(recs, isClient))
  }

  /** Rows keep the recordings' order: the rows of a concatenation are the
      rows of its parts, concatenated. */
  lemma RowsAppend(a: seq<Recording>, b: seq<Recording>, isClient: bool)
    ensures Rows(a + b, isClient) == Rows(a, isClient) + Rows(b, isClient)
  {
  }
}
