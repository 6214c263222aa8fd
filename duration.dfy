/**
 * Conversions between track lengths in seconds and the base-60 text
 * Bilibili puts in a search item's `duration` field ("3:25", "1:02:03").
 * `DurationToSec` and `SecToDuration` are the helpers of bilibili.js and
 * musicSearch.js; `SdkSecToDuration` is musicSearch.js's own variant, which
 * leaves text already of the form "m:ss" alone.
 */
module Duration {
  import opened Wrappers
  import opened JsValues

  /** Text made of digits and ':' only: the fragment whose numeric coercion is modelled. */
  predicate IsDurationText(s: string) {
    forall i :: 0 <= i < |s| ==> IsDigit(s[i]) || s[i] == ':'
  }

  type DurationText = s: string | IsDurationText(s) witness ""

  /** The `duration` field of a raw item: a number, a text, or anything else. */
  datatype RawDuration = Seconds(n: nat) | Text(t: DurationText) | Absent

  /** `s.split(":")`. */
  function SplitColon(s: string): (parts: seq<string>)
    ensures |parts| >= 1
    ensures forall i, j :: 0 <= i < |parts| && 0 <= j < |parts[i]| ==> parts[i][j] != ':'
    ensures IsDurationText(s) ==> forall i :: 0 <= i < |parts| ==> IsDigits(parts[i])
  {
    if |s| == 0 then [""]
    else
      var rest := SplitColon(s[1..]);
      assert IsDurationText(s) ==> IsDurationText(s[1..]);
      if s[0] == ':' then [""] + rest
      else [[s[0]] + rest[0]] + rest[1..]
  }

  /** `parts.join(":")`, the inverse of `SplitColon`. */
  function JoinColon(parts: seq<string>): string
    requires |parts| >= 1
  {
    if |parts| == 1 then parts[0] else parts[0] + ":" + JoinColon(parts[1..])
  }

  /** Splitting loses nothing: joining the parts again gives the text back. */
  lemma {:induction false} JoinSplit(s: string)
    ensures JoinColon(SplitColon(s)) == s
  {
    if |s| > 0 {
      var rest := SplitColon(s[1..]);
      JoinSplit(s[1..]);
      if s[0] != ':' {
        if |rest| == 1 {
          assert JoinColon(rest) == rest[0];
        } else {
          assert JoinColon(rest) == rest[0] + ":" + JoinColon(rest[1..]);
        }
      }
    }
  }

  /** A text with no ':' splits into itself. */
  lemma {:induction false} SplitNoColon(s: string)
    requires forall i :: 0 <= i < |s| ==> s[i] != ':'
    ensures SplitColon(s) == [s]
  {
    if |s| > 0 {
      SplitNoColon(s[1..]);
      assert [s[0]] + s[1..] == s;
    }
  }

  /** A colon-free head followed by ':' becomes the first part. */
  lemma {:induction false} SplitAfterHead(a: string, rest: string)
    requires forall i :: 0 <= i < |a| ==> a[i] != ':'
    ensures SplitColon(a + ":" + rest) == [a] + SplitColon(rest)
  {
    if |a| > 0 {
      SplitAfterHead(a[1..], rest);
      assert (a + ":" + rest)[1..] == a[1..] + ":" + rest;
      assert [a[0]] + a[1..] == a;
    } else {
      assert (a + ":" + rest)[1..] == rest;
    }
  }

  /** `parts.reduce((prev, curr) => 60 * prev + +curr, 0)`. */
  function FoldBase60(parts: seq<string>): nat
    requires forall i :: 0 <= i < |parts| ==> IsDigits(parts[i])
  {
    if |parts| == 0 then 0
    else 60 * FoldBase60(parts[..|parts| - 1]) + ParseDecimal(parts[|parts| - 1])
  }

  /** `durationToSec`: a number unchanged, a text folded base 60, anything else 0. */
  function DurationToSec(d: RawDuration): nat
  {
    match d
    case Seconds(n) => n
    case Text(t) => FoldBase60(SplitColon(t))
    case Absent => 0
  }

  /** `String(n).padStart(2, "0")`. */
  function Pad2(s: string): (r: string)
    ensures |s| < 2 ==> |r| == 2 && r[2 - |s|..] == s && forall i :: 0 <= i < 2 - |s| ==> r[i] == '0'
    ensures |s| >= 2 ==> r == s
  {
    if |s| == 0 then "00" else if |s| == 1 then "0" + s else s
  }

  /**
   * `${Math.floor(n / 60)}:${String(n % 60).padStart(2, "0")}` for a natural
   * `n`: the minutes without leading zero, ':', and the seconds in two digits.
   */
  function Clock(n: nat): (r: string)
    ensures IsClockText(r) && IsDurationText(r)
    ensures ParseDecimal(r[..|r| - 3]) == n / 60 && ParseDecimal(r[|r| - 2..]) == n % 60
    ensures |r| > 4 ==> r[0] != '0'
  {
    var m := NatToString(n / 60);
    var sec := NatToString(n % 60);
    assert n % 60 < 10 ==> |sec| == 1;
    assert n % 60 >= 10 ==> |sec| == 2 by {
      if n % 60 >= 10 {
        assert sec == NatToString((n % 60) / 10) + [DigitChar((n % 60) % 10)];
      }
    }
    var r := m + ":" + Pad2(sec);
    assert r[..|r| - 3] == m;
    assert r[|r| - 2..] == Pad2(sec);
    ParseNatToString(n / 60);
    ParseNatToString(n % 60);
    if |sec| == 1 then
      ParseLeadingZero(sec);
      r
    else r
  }

  /** Text of the form `/^\d+:\d{2}$/`. */
  predicate IsClockText(s: string) {
    |s| >= 4 && s[|s| - 3] == ':' && IsDigits(s[..|s| - 3]) && IsDigits(s[|s| - 2..])
  }

  /** bilibili.js `secToDuration`: the clock text of a number, null for anything else. */
  function SecToDuration(d: RawDuration): (r: Option<string>)
    ensures d.Seconds? <==> r.Some?
    ensures r.Some? ==> IsClockText(r.value)
    ensures r.Some? ==> ParseDecimal(r.value[..|r.value| - 3]) == d.n / 60 && ParseDecimal(r.value[|r.value| - 2..]) == d.n % 60
  {
    match d
    case Seconds(n) => Some(Clock(n))
    case _ => None
  }

  /**
   * musicSearch.js `secToDuration`: a number goes through `formatPlayTime`
   * (not part of this model, hence a parameter); "m:ss" text is returned as
   * it is; other text with at least one ':' is folded and formatted; the
   * rest gives null.
   */
  function SdkSecToDuration(d: RawDuration, formatPlayTime: nat -> string): (r: Option<string>)
    ensures d.Seconds? ==> r == Some(formatPlayTime(d.n))
    ensures d.Text? && IsClockText(d.t) ==> r == Some(d.t)
    ensures d.Text? && !IsClockText(d.t) && |SplitColon(d.t)| < 2 ==> r == None
    ensures d.Text? && !IsClockText(d.t) && |SplitColon(d.t)| >= 2 ==> r == Some(formatPlayTime(DurationToSec(d)))
    ensures d.Absent? ==> r == None
  {
    match d
    case Seconds(n) => Some(formatPlayTime(n))
    case Text(t) =>
      if IsClockText(t) then Some(t)
      else
        var parts := SplitColon(t);
        if |parts| >= 2 then Some(formatPlayTime(FoldBase60(parts))) else None
    case Absent => None
  }

  /** Round trip: reading back the clock text of `n` seconds gives `n`. */
  lemma ClockRoundTrip(n: nat)
    ensures DurationToSec(Text(Clock(n))) == n
  {
    var m := NatToString(n / 60);
    var sec := Pad2(NatToString(n % 60));
    assert Clock(n) == m + ":" + sec;
    assert IsDigits(sec);
    FoldTwo(m, sec);
    ParseNatToString(n / 60);
    ParseNatToString(n % 60);
    if |NatToString(n % 60)| == 1 {
      ParseLeadingZero(NatToString(n % 60));
    }
  }

  /** Round trip through the two helpers: `durationToSec(secToDuration(n)) == n`. */
  lemma SecToDurationRoundTrip(n: nat)
    ensures SecToDuration(Seconds(n)).Some?
    ensures DurationToSec(Text(SecToDuration(Seconds(n)).value)) == n
  {
    ClockRoundTrip(n);
  }

  /** Every clock text is left unchanged by musicSearch.js's variant. */
  lemma SdkKeepsClockText(n: nat, formatPlayTime: nat -> string)
    ensures SdkSecToDuration(Text(Clock(n)), formatPlayTime) == Some(Clock(n))
  {
  }

  predicate ColonFree(s: string) {
    forall i :: 0 <= i < |s| ==> s[i] != ':'
  }

  /** Joining colon-free parts and splitting again gives the parts back. */
  lemma {:induction false} SplitJoin(parts: seq<string>)
    requires |parts| >= 1
    requires forall i :: 0 <= i < |parts| ==> ColonFree(parts[i])
    ensures SplitColon(JoinColon(parts)) == parts
  {
    if |parts| == 1 {
      SplitNoColon(parts[0]);
    } else {
      SplitJoin(parts[1..]);
      SplitAfterHead(parts[0], JoinColon(parts[1..]));
      assert [parts[0]] + parts[1..] == parts;
    }
  }

  /** Digit strings joined by ':' form a duration text. */
  lemma JoinedDigitsAreDurationText(a: string, b: string)
    requires IsDurationText(a) && IsDurationText(b)
    ensures IsDurationText(a + ":" + b)
  {
    var t := a + ":" + b;
    forall i | 0 <= i < |t| ensures IsDigit(t[i]) || t[i] == ':' {
      if i < |a| {
        assert t[i] == a[i];
      } else if i > |a| {
        assert t[i] == b[i - |a| - 1];
      }
    }
  }

  /** "m:ss" folds to 60 m + ss. */
  lemma FoldTwo(a: string, b: string)
    requires IsDigits(a) && IsDigits(b)
    ensures IsDurationText(a + ":" + b)
    ensures DurationToSec(Text(a + ":" + b)) == 60 * ParseDecimal(a) + ParseDecimal(b)
  {
    JoinedDigitsAreDurationText(a, b);
    var p := [a, b];
    assert JoinColon(p) == a + ":" + b by {
      assert p[1..] == [b];
    }
    assert ColonFree(a) && ColonFree(b);
    SplitJoin(p);
    var t: DurationText := a + ":" + b;
    assert SplitColon(t) == p;
    assert FoldBase60(p) == 60 * FoldBase60([a]) + ParseDecimal(b) by {
      assert p[..1] == [a];
    }
    assert FoldBase60([a]) == ParseDecimal(a) by {
      assert [a][..0] == [];
    }
  }

  /** "h:mm:ss" folds to 3600 h + 60 mm + ss. */
  lemma FoldThree(a: string, b: string, c: string)
    requires IsDigits(a) && IsDigits(b) && IsDigits(c)
    ensures IsDurationText(a + ":" + b + ":" + c)
    ensures DurationToSec(Text(a + ":" + b + ":" + c))
         == 3600 * ParseDecimal(a) + 60 * ParseDecimal(b) + ParseDecimal(c)
  {
    JoinedDigitsAreDurationText(a, b);
    JoinedDigitsAreDurationText(a + ":" + b, c);
    var p := [a, b, c];
    assert JoinColon(p) == a + ":" + b + ":" + c by {
      assert p[1..] == [b, c] && [b, c][1..] == [c];
      assert JoinColon([b, c]) == b + ":" + c;
    }
    assert ColonFree(a) && ColonFree(b) && ColonFree(c);
    SplitJoin(p);
    var t: DurationText := a + ":" + b + ":" + c;
    assert SplitColon(t) == p;
    assert FoldBase60(p) == 60 * FoldBase60([a, b]) + ParseDecimal(c) by {
      assert p[..2] == [a, b];
    }
    assert FoldBase60([a, b]) == 60 * FoldBase60([a]) + ParseDecimal(b) by {
      assert [a, b][..1] == [a];
    }
    assert FoldBase60([a]) == ParseDecimal(a) by {
      assert [a][..0] == [];
    }
  }

  /** The example "3:25" is 205 seconds. */
  lemma MinutesExample()
    ensures IsDurationText("3:25") && DurationToSec(Text("3:25")) == 205
  {
    assert ParseDecimal("3") == 3 by { assert "3"[..0] == ""; }
    assert ParseDecimal("25") == 25 by { assert "25"[..1] == "2"; assert "2"[..0] == ""; }
    FoldTwo("3", "25");
    assert "3" + ":" + "25" == "3:25";
  }

  /** The example "1:02:03" is 3723 seconds. */
  lemma HoursExample()
    ensures IsDurationText("1:02:03") && DurationToSec(Text("1:02:03")) == 3723
  {
    assert ParseDecimal("1") == 1 by { assert "1"[..0] == ""; }
    assert ParseDecimal("02") == 2 by { assert "02"[..1] == "0"; assert "0"[..0] == ""; }
    assert ParseDecimal("03") == 3 by { assert "03"[..1] == "0"; assert "0"[..0] == ""; }
    FoldThree("1", "02", "03");
    assert "1" + ":" + "02" + ":" + "03" == "1:02:03";
  }
}
