/** The JavaScript string built-ins the storefront relies on: `trim`,
    `split(',')`, `join`, `toLowerCase`, `Number.prototype.toString` and
    `parseFloat`, restricted to what the model needs (ASCII case mapping,
    integer numbers). */
module Text {
  import opened Common

  // ---------------------------------------------------------------------------
  // Whitespace trimming
  // ---------------------------------------------------------------------------

  /** The ASCII whitespace characters `String.prototype.trim` and `parseFloat`
      skip: space, tab, line feed, vertical tab, form feed, carriage return. */
  predicate IsSpace(c: char) {
    c == ' ' || c == '\t' || c == '\n' || c == '\U{000B}' || c == '\U{000C}' || c == '\r'
  }

  /** A string with no whitespace at either end. */
  predicate IsTrimmed(s: string) {
    s == [] || (!IsSpace(s[0]) && !IsSpace(s[|s| - 1]))
  }

  /** How many whitespace characters open `s`. */
  function LeadingSpaces(s: string): (k: nat)
    ensures k <= |s|
    ensures k < |s| ==> !IsSpace(s[k])
    ensures forall i :: 0 <= i < k ==> IsSpace(s[i])
    decreases |s|
  {
    if |s| > 0 && IsSpace(s[0]) then 1 + LeadingSpaces(s[1..]) else 0
  }

  function TrimStart(s: string): (r: string)
    ensures r == [] || !IsSpace(r[0])
  {
    s[LeadingSpaces(s)..]
  }

  /** Nothing to trim at the start leaves the string as it is. */
  lemma TrimStartUnchanged(s: string)
    requires s == [] || !IsSpace(s[0])
    ensures TrimStart(s) == s
  {
  }

  function TrimEnd(s: string): (r: string)
    ensures r <= s
    ensures r == [] || !IsSpace(r[|r| - 1])
    ensures forall i :: |r| <= i < |s| ==> IsSpace(s[i])
    decreases |s|
  {
    if |s| > 0 && IsSpace(s[|s| - 1]) then TrimEnd(s[..|s| - 1]) else s
  }

  /** `s.trim()`: the middle of `s` with only whitespace cut away at either
      end, and none left there. */
  function Trim(s: string): (r: string)
    ensures IsTrimmed(r)
    ensures exists i, j ::
              && 0 <= i <= j <= |s| && r == s[i..j]
              && (forall k :: 0 <= k < i ==> IsSpace(s[k]))
              && (forall k :: j <= k < |s| ==> IsSpace(s[k]))
  {
    var i := LeadingSpaces(s);
    var r := TrimEnd(s[i..]);
    var j := i + |r|;
    assert r == s[i..j];
    assert forall k :: j <= k < |s| ==> s[k] == s[i..][k - i];
    r
  }

  /** Trimming leaves an already trimmed string alone. */
  lemma TrimOfTrimmed(s: string)
    requires IsTrimmed(s)
    ensures Trim(s) == s
  {
  }

  /** Leading whitespace never survives trimming. */
  lemma TrimDropsLeadingSpace(c: char, s: string)
    requires IsSpace(c)
    ensures Trim([c] + s) == Trim(s)
  {
    assert ([c] + s)[1..] == s;
  }

  /** Trailing whitespace never survives trimming. */
  lemma {:induction false} TrimDropsTrailingSpace(s: string, c: char)
    requires IsSpace(c)
    ensures Trim(s + [c]) == Trim(s)
  {
    var i := LeadingSpaces(s);
    if i == |s| {
      LeadingSpacesAll(s, c);
    } else {
      LeadingSpacesExtend(s, c);
      assert (s + [c])[i..] == s[i..] + [c];
      assert (s[i..] + [c])[..|s[i..]|] == s[i..];
    }
  }

  /** All-whitespace text stays all whitespace with one more space. */
  lemma {:induction false} LeadingSpacesAll(s: string, c: char)
    requires IsSpace(c) && LeadingSpaces(s) == |s|
    ensures LeadingSpaces(s + [c]) == |s| + 1
    decreases |s|
  {
    if |s| > 0 {
      assert (s + [c])[1..] == s[1..] + [c];
      LeadingSpacesAll(s[1..], c);
    }
  }

  /** Appending leaves the count of leading whitespace alone once a
      non-whitespace character occurs. */
  lemma {:induction false} LeadingSpacesExtend(s: string, c: char)
    requires LeadingSpaces(s) < |s|
    ensures LeadingSpaces(s + [c]) == LeadingSpaces(s)
    decreases |s|
  {
    if IsSpace(s[0]) {
      assert (s + [c])[1..] == s[1..] + [c];
      LeadingSpacesExtend(s[1..], c);
    }
  }

  /** `pieces.map(p => p.trim())`. */
  function TrimAll(pieces: seq<string>): (r: seq<string>)
    ensures |r| == |pieces|
    ensures forall i :: 0 <= i < |r| ==> r[i] == Trim(pieces[i])
    decreases |pieces|
  {
    if |pieces| == 0 then [] else [Trim(pieces[0])] + TrimAll(pieces[1..])
  }

  lemma TrimAllOfTrimmed(pieces: seq<string>)
    requires forall i :: 0 <= i < |pieces| ==> IsTrimmed(pieces[i])
    ensures TrimAll(pieces) == pieces
  {
    forall i | 0 <= i < |pieces|
      ensures TrimAll(pieces)[i] == pieces[i]
    {
      TrimOfTrimmed(pieces[i]);
    }
  }

  // ---------------------------------------------------------------------------
  // split(',') and join(sep)
  // ---------------------------------------------------------------------------

  /** `s.split(',')`: the pieces between commas, in order. The empty string
      splits into one empty piece, as in JavaScript. */
  function SplitComma(s: string): (pieces: seq<string>)
    ensures |pieces| >= 1
    ensures forall i :: 0 <= i < |pieces| ==> ',' !in pieces[i]
    decreases |s|
  {
    if |s| == 0 then [""]
    else
      var rest := SplitComma(s[1..]);
      if s[0] == ',' then [""] + rest else [[s[0]] + rest[0]] + rest[1..]
  }

  /** `ws.join(sep)`. */
  function Join(ws: seq<string>, sep: string): string
    decreases |ws|
  {
    if |ws| == 0 then ""
    else if |ws| == 1 then ws[0]
    else ws[0] + sep + Join(ws[1..], sep)
  }

  /** Splitting on commas and joining back with a comma is the identity. */
  lemma {:induction false} SplitThenJoin(s: string)
    ensures Join(SplitComma(s), ",") == s
    decreases |s|
  {
    if |s| > 0 {
      var rest := SplitComma(s[1..]);
      SplitThenJoin(s[1..]);
      if s[0] == ',' {
        assert Join([""] + rest, ",") == "" + "," + Join(rest, ",");
      } else {
        JoinGlued(s[0], rest);
      }
      assert s == [s[0]] + s[1..];
    }
  }

  /** A character glued to the first piece stays in front of the joined text. */
  lemma JoinGlued(c: char, rest: seq<string>)
    requires |rest| >= 1
    ensures Join([[c] + rest[0]] + rest[1..], ",") == [c] + Join(rest, ",")
  {
    if |rest| == 1 {
      JoinGluedSingle(c, rest[0]);
      assert rest == [rest[0]] && rest[1..] == [];
    } else {
      JoinPrefixed([c], rest, ",");
    }
  }

  lemma JoinGluedSingle(c: char, w: string)
    ensures Join([[c] + w], ",") == [c] + Join([w], ",")
  {
  }

  /** Text put before the first piece ends up before the joined text. */
  lemma JoinPrefixed(p: string, ws: seq<string>, sep: string)
    requires |ws| >= 2
    ensures Join([p + ws[0]] + ws[1..], sep) == p + Join(ws, sep)
  {
    var pieces := [p + ws[0]] + ws[1..];
    var tail := sep + Join(ws[1..], sep);
    calc {
      Join(pieces, sep);
    == { JoinCons(pieces, sep); assert pieces[0] == p + ws[0] && pieces[1..] == ws[1..]; }
      (p + ws[0]) + tail;
    ==
      p + (ws[0] + tail);
    == { JoinCons(ws, sep); }
      p + Join(ws, sep);
    }
  }

  /** A piece with no comma stays whole and glues onto the first piece of what follows. */
  lemma {:induction false} SplitAfterCommaFree(w: string, t: string)
    requires ',' !in w
    ensures SplitComma(w + t) == [w + SplitComma(t)[0]] + SplitComma(t)[1..]
    decreases |w|
  {
    if |w| > 0 {
      assert (w + t)[0] == w[0] && (w + t)[1..] == w[1..] + t;
      SplitAfterCommaFree(w[1..], t);
      assert [w[0]] + (w[1..] + SplitComma(t)[0]) == w + SplitComma(t)[0];
    } else {
      var pieces := SplitComma(t);
      assert w + t == t && w + pieces[0] == pieces[0];
      assert pieces == [pieces[0]] + pieces[1..];
    }
  }

  /** A leading space is kept on the first piece. */
  lemma SplitSpaced(tail: string)
    ensures SplitComma(" " + tail) == [" " + SplitComma(tail)[0]] + SplitComma(tail)[1..]
  {
    assert (" " + tail)[0] == ' ' && (" " + tail)[1..] == tail;
  }

  /** `w, rest` splits into `w` followed by the pieces of ` rest`. */
  lemma SplitJoinedStep(w: string, tail: string)
    requires ',' !in w
    ensures SplitComma(w + (", " + tail)) == [w] + SplitComma(" " + tail)
  {
    var t := ", " + tail;
    assert t[0] == ',' && t[1..] == " " + tail;
    assert SplitComma(t) == [""] + SplitComma(" " + tail);
    SplitAfterCommaFree(w, t);
    assert w + "" == w;
  }

  /** Trimming erases the space that `join(', ')` puts after each comma. */
  lemma TrimAllSpaced(tail: string)
    ensures TrimAll(SplitComma(" " + tail)) == TrimAll(SplitComma(tail))
  {
    var s' := SplitComma(tail);
    SplitSpaced(tail);
    TrimDropsLeadingSpace(' ', s'[0]);
    assert [' '] + s'[0] == " " + s'[0];
    var spaced := [" " + s'[0]] + s'[1..];
    assert TrimAll(spaced) == [Trim(s'[0])] + TrimAll(s'[1..]);
    assert s' == [s'[0]] + s'[1..];
  }

  lemma TrimAllCons(w: string, rest: seq<string>)
    ensures TrimAll([w] + rest) == [Trim(w)] + TrimAll(rest)
  {
    assert ([w] + rest)[1..] == rest;
  }

  lemma JoinCons(ws: seq<string>, sep: string)
    requires |ws| >= 2
    ensures Join(ws, sep) == ws[0] + (sep + Join(ws[1..], sep))
  {
  }

  /** `w, rest` splits and trims into `w` trimmed, then the trimmed pieces of ` rest`. */
  lemma SplitTrimJoined(w: string, tail: string)
    requires ',' !in w
    ensures TrimAll(SplitComma(w + (", " + tail))) == [Trim(w)] + TrimAll(SplitComma(tail))
  {
    SplitJoinedStep(w, tail);
    TrimAllCons(w, SplitComma(" " + tail));
    TrimAllSpaced(tail);
  }

  /** Joining with ", " and then splitting on ',' and trimming gives back the
      trimmed pieces: the extra space after each comma is trimmed away. */
  lemma {:induction false} JoinThenSplitTrim(ws: seq<string>)
    requires |ws| >= 1
    requires forall i :: 0 <= i < |ws| ==> ',' !in ws[i]
    ensures TrimAll(SplitComma(Join(ws, ", "))) == TrimAll(ws)
    decreases |ws|
  {
    var w := ws[0];
    if |ws| == 1 {
      SplitAfterCommaFree(w, "");
      assert w + "" == w;
      assert SplitComma(w) == [w];
    } else {
      var rest := ws[1..];
      JoinThenSplitTrim(rest);
      JoinCons(ws, ", ");
      SplitTrimJoined(w, Join(rest, ", "));
      TrimAllCons(w, rest);
      assert ws == [w] + rest;
    }
  }

  // ---------------------------------------------------------------------------
  // toLowerCase (ASCII letters)
  // ---------------------------------------------------------------------------

  function LowerChar(c: char): (r: char)
    ensures 'A' <= c <= 'Z' ==> r as int == c as int + 32
    ensures !('A' <= c <= 'Z') ==> r == c
  {
    if 'A' <= c <= 'Z' then (c as int + 32) as char else c
  }

  /** `s.toLowerCase()`. */
  function Lower(s: string): (r: string)
    ensures |r| == |s|
    ensures forall i :: 0 <= i < |s| ==> r[i] == LowerChar(s[i])
  {
    seq(|s|, i requires 0 <= i < |s| => LowerChar(s[i]))
  }

  // ---------------------------------------------------------------------------
  // Number.prototype.toString and parseFloat (integers)
  // ---------------------------------------------------------------------------

  predicate IsDigit(c: char) {
    '0' <= c <= '9'
  }

  predicate AllDigits(s: string) {
    forall i :: 0 <= i < |s| ==> IsDigit(s[i])
  }

  function DigitChar(d: nat): (c: char)
    requires d < 10
    ensures IsDigit(c) && c as int - '0' as int == d
  {
    ('0' as int + d) as char
  }

  /** Decimal digits of `n`, without leading zeros. */
  function ShowNat(n: nat): (s: string)
    ensures |s| >= 1 && AllDigits(s)
    ensures s[0] != '0' || n == 0
    decreases n
  {
    if n < 10 then [DigitChar(n)] else ShowNat(n / 10) + [DigitChar(n % 10)]
  }

  /** The number a run of decimal digits denotes. */
  function DigitsValue(s: string): nat
    requires AllDigits(s)
    decreases |s|
  {
    if |s| == 0 then 0 else DigitsValue(s[..|s| - 1]) * 10 + (s[|s| - 1] as int - '0' as int)
  }

  /** Length of the longest run of digits at the start of `s`. */
  function DigitRun(s: string): (k: nat)
    ensures k <= |s| && AllDigits(s[..k])
    ensures k < |s| ==> !IsDigit(s[k])
    decreases |s|
  {
    if |s| > 0 && IsDigit(s[0]) then 1 + DigitRun(s[1..]) else 0
  }

  /** `n.toString()` for an integer `n`. */
  function ShowNumber(n: int): (s: string)
    ensures |s| >= 1 && !IsSpace(s[0])
  {
    if n < 0 then "-" + ShowNat(-n) else ShowNat(n)
  }

  /** The value of the longest run of digits at the start of `t`; `None`
      when there is none. */
  function ParseDigitRun(t: string): (r: Option<nat>)
    ensures r.None? <==> DigitRun(t) == 0
  {
    var k := DigitRun(t);
    if k == 0 then None else Some(DigitsValue(t[..k]))
  }

  /** An optional sign, then the longest run of digits. */
  function ParseSigned(t: string): Option<int> {
    if |t| > 0 && t[0] == '-' then
      match ParseDigitRun(t[1..])
      case None => None
      case Some(v) => Some(-(v as int))
    else if |t| > 0 && t[0] == '+' then
      match ParseDigitRun(t[1..])
      case None => None
      case Some(v) => Some(v as int)
    else
      match ParseDigitRun(t)
      case None => None
      case Some(v) => Some(v as int)
  }

  /** `parseFloat(s)` on integer text: leading whitespace, an optional sign,
      then the longest run of digits; `None` stands for `NaN`. */
  function ParseNumber(s: string): Option<int> {
    ParseSigned(TrimStart(s))
  }

  lemma {:induction false} ShowNatValue(n: nat)
    ensures DigitsValue(ShowNat(n)) == n
    decreases n
  {
    if n >= 10 {
      ShowNatValue(n / 10);
      var s := ShowNat(n);
      assert s[..|s| - 1] == ShowNat(n / 10);
    }
  }

  lemma {:induction false} DigitRunOfDigits(s: string)
    requires AllDigits(s)
    ensures DigitRun(s) == |s|
    decreases |s|
  {
    if |s| > 0 {
      DigitRunOfDigits(s[1..]);
    }
  }

  /** A string of digits is read whole. */
  lemma ParseDigitRunOfDigits(s: string)
    requires |s| >= 1 && AllDigits(s)
    ensures ParseDigitRun(s) == Some(DigitsValue(s))
  {
    DigitRunOfDigits(s);
    assert s[..|s|] == s;
  }

  /** A leading minus negates the digit run after it. */
  lemma ParseSignedMinus(t: string, v: nat)
    requires |t| > 0 && t[0] == '-' && ParseDigitRun(t[1..]) == Some(v)
    ensures ParseSigned(t) == Some(-(v as int))
  {
  }

  /** Without a sign, the digit run is the number. */
  lemma ParseSignedUnsigned(t: string, v: nat)
    requires |t| > 0 && IsDigit(t[0]) && ParseDigitRun(t) == Some(v)
    ensures ParseSigned(t) == Some(v as int)
  {
  }

  /** Text that opens without whitespace is parsed as it stands. */
  lemma ParseUntrimmed(t: string, r: Option<int>)
    requires |t| > 0 && !IsSpace(t[0]) && ParseSigned(t) == r
    ensures ParseNumber(t) == r
  {
    TrimStartUnchanged(t);
  }

  /** Digits alone parse to their value. */
  lemma ParseDigits(s: string)
    requires |s| >= 1 && AllDigits(s)
    ensures ParseNumber(s) == Some(DigitsValue(s))
  {
    ParseDigitRunOfDigits(s);
    ParseSignedUnsigned(s, DigitsValue(s));
    ParseUntrimmed(s, Some(DigitsValue(s) as int));
  }

  /** A minus sign then a digit run parse to the negated run. */
  lemma ParseNegatedRun(s: string, v: nat)
    requires ParseDigitRun(s) == Some(v)
    ensures ParseNumber("-" + s) == Some(-(v as int))
  {
    var t := "-" + s;
    assert t[0] == '-' && t[1..] == s;
    ParseSignedMinus(t, v);
    ParseUntrimmed(t, Some(-(v as int)));
  }

  /** Round trip: parsing the printed form of an integer gives it back. */
  lemma ParseShowNumber(n: int)
    ensures ParseNumber(ShowNumber(n)) == Some(n)
  {
    if n < 0 {
      var digits := ShowNat(-n);
      assert ShowNumber(n) == "-" + digits;
      ParseDigitRunOfDigits(digits);
      ParseNegatedRun(digits, DigitsValue(digits));
      ShowNatValue(-n);
    } else {
      assert ShowNumber(n) == ShowNat(n);
      ParseDigits(ShowNat(n));
      ShowNatValue(n);
    }
  }

  /** An empty field parses to `NaN`. */
  lemma ParseEmptyIsNaN()
    ensures ParseNumber("") == None
  {
  }
}
