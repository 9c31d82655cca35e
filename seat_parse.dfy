/** The seat-count parse of app.py:315: the dialog text is stripped of the
    label characters, cut at the first " /" and handed to Python's `int()`.
    Each of the three steps is a function of its own. */
module SeatParse {
  import opened Options

  /** The argument of `str.strip` is a set of characters, not a prefix. */
  const LabelChars: set<char> := {'剩', '餘', '名', '額', '/', '開', '放', '：'}

  /** The label the portal puts in front of the counts. */
  const SeatLabel: string := "剩餘名額/開放名額："

  /** The separator handed to `str.split`. */
  const Separator: string := " /"

  /** The whitespace `int()` ignores around a number (ASCII only). */
  const Whitespace: set<char> := {' ', '\t', '\n', '\U{000B}', '\U{000C}', '\r'}

  /** Length of the longest prefix of `s` made of characters of `chars`. */
  function LeadingRun(s: string, chars: set<char>): (n: nat)
    ensures n <= |s|
    ensures forall i :: 0 <= i < n ==> s[i] in chars
    ensures n < |s| ==> s[n] !in chars
    decreases |s|
  {
    if s != [] && s[0] in chars then 1 + LeadingRun(s[1..], chars) else 0
  }

  /** Length of the longest suffix of `s` made of characters of `chars`. */
  function TrailingRun(s: string, chars: set<char>): (n: nat)
    ensures n <= |s|
    ensures forall i :: |s| - n <= i < |s| ==> s[i] in chars
    ensures n < |s| ==> s[|s| - 1 - n] !in chars
    decreases |s|
  {
    if s != [] && s[|s| - 1] in chars then 1 + TrailingRun(s[..|s| - 1], chars) else 0
  }

  /** Python's `s.strip(chars)`: drops every character of the set from both
      ends, in whatever order they come. What is kept is the contiguous part
      of `s` right after the leading run of set characters; everything after
      it is a set character too, and it neither starts nor ends with one. */
  function Strip(s: string, chars: set<char>): (r: string)
    ensures LeadingRun(s, chars) + |r| <= |s|
    ensures r == s[LeadingRun(s, chars)..LeadingRun(s, chars) + |r|]
    ensures forall i :: LeadingRun(s, chars) + |r| <= i < |s| ==> s[i] in chars
    ensures r != [] ==> r[0] !in chars && r[|r| - 1] !in chars
  {
    var rest := s[LeadingRun(s, chars)..];
    rest[..|rest| - TrailingRun(rest, chars)]
  }

  /** A string whose ends are not in `chars` is left alone by `strip`. */
  lemma StripKeeps(s: string, chars: set<char>)
    requires s != [] ==> s[0] !in chars && s[|s| - 1] !in chars
    ensures Strip(s, chars) == s
  {
  }

  /** Leading characters from the set are all skipped, whatever their order. */
  lemma {:induction false} SkipsPrefix(p: string, s: string, chars: set<char>)
    requires forall i :: 0 <= i < |p| ==> p[i] in chars
    requires s != [] && s[0] !in chars
    ensures LeadingRun(p + s, chars) == |p|
    decreases |p|
  {
    if p != [] {
      assert (p + s)[0] == p[0] && (p + s)[1..] == p[1..] + s;
      SkipsPrefix(p[1..], s, chars);
    }
  }

  /** `sep` occurs in `s` at position `k`. */
  predicate OccursAt(s: string, k: nat, sep: string)
  {
    k + |sep| <= |s| && s[k..k + |sep|] == sep
  }

  /** An occurrence in `s` past its first character is one in `s[1..]`. */
  lemma OccursInTail(s: string, sep: string)
    requires s != []
    ensures forall k :: 1 <= k <= |s| ==> (OccursAt(s, k, sep) <==> OccursAt(s[1..], k - 1, sep))
  {
    forall k | 1 <= k <= |s|
      ensures OccursAt(s, k, sep) <==> OccursAt(s[1..], k - 1, sep)
    {
      if k + |sep| <= |s| {
        var here, there := s[k..k + |sep|], s[1..][k - 1..k - 1 + |sep|];
        assert forall j :: 0 <= j < |here| ==> here[j] == there[j];
      }
    }
  }

  /** Python's `s.split(sep)[0]`: the text before the first occurrence of
      `sep`, or all of `s` when `sep` does not occur. */
  function Before(s: string, sep: string): (r: string)
    requires sep != []
    ensures |r| <= |s| && r == s[..|r|]
    ensures |r| < |s| ==> OccursAt(s, |r|, sep)
    ensures forall k :: 0 <= k < |r| ==> !OccursAt(s, k, sep)
    decreases |s|
  {
    if |s| < |sep| then s
    else if s[..|sep|] == sep then ""
    else
      var rest := Before(s[1..], sep);
      OccursInTail(s, sep);
      assert !OccursAt(s, 0, sep) by {
        assert s[0..|sep|] == s[..|sep|];
      }
      [s[0]] + rest
  }

  /** Text before the separator, when the text itself has no slash. */
  lemma {:induction false} BeforeSeparator(a: string, tail: string)
    requires '/' !in a
    ensures Before(a + Separator + tail, Separator) == a
    decreases |a|
  {
    var s := a + Separator + tail;
    if a == [] {
      assert s[..2] == Separator;
    } else {
      assert s[..2] != Separator by {
        assert s[1] == if |a| > 1 then a[1] else ' ';
      }
      assert s[1..] == a[1..] + Separator + tail;
      BeforeSeparator(a[1..], tail);
      assert [a[0]] + a[1..] == a;
    }
  }

  /** Text without a space has no separator: `split` returns it whole. */
  lemma BeforeWithoutSpace(s: string)
    requires ' ' !in s
    ensures Before(s, Separator) == s
  {
    var r := Before(s, Separator);
    assert forall k :: 0 <= k <= |s| - 2 ==> s[k..k + 2][0] == s[k];
  }

  predicate IsDigit(c: char)
  {
    '0' <= c <= '9'
  }

  /** A non-empty run of ASCII digits. */
  predicate IsDigits(s: string)
  {
    s != [] && forall i :: 0 <= i < |s| ==> IsDigit(s[i])
  }

  /** The decimal value of a run of digits. */
  function DigitsValue(s: string): nat
    requires forall i :: 0 <= i < |s| ==> IsDigit(s[i])
    decreases |s|
  {
    if s == [] then 0
    else
      assert IsDigit(s[|s| - 1]);
      DigitsValue(s[..|s| - 1]) * 10 + (s[|s| - 1] as int - '0' as int)
  }

  /** `int()` once the surrounding whitespace is gone: an optional sign and
      then decimal digits. */
  function ParseSigned(t: string): (r: Option<int>)
    ensures r.Some? ==> exists k :: 0 <= k < |t| && IsDigit(t[k])
  {
    if t != [] && (t[0] == '+' || t[0] == '-') then
      var digits := t[1..];
      if IsDigits(digits) then
        assert IsDigit(t[1]);
        var magnitude: int := DigitsValue(digits);
        Some(if t[0] == '-' then -magnitude else magnitude)
      else None
    else if IsDigits(t) then
      assert IsDigit(t[0]);
      Some(DigitsValue(t))
    else None
  }

  /** Python's `int(s)` on a string; `None` where it raises. It never
      succeeds on text without a digit. */
  function ParseInt(s: string): (r: Option<int>)
    ensures r.Some? ==> exists k :: 0 <= k < |s| && IsDigit(s[k])
  {
    var t := Strip(s, Whitespace);
    assert forall k :: 0 <= k < |t| ==> t[k] == s[LeadingRun(s, Whitespace) + k];
    ParseSigned(t)
  }

  /** The count shown on the seat dialog: the number of app.py:315, or
      `None` where that line raises. Text without any ASCII digit never
      yields a count, whatever else it holds. */
  function ParseSeat(text: string): (r: Option<int>)
    ensures r.Some? ==> exists k :: 0 <= k < |text| && IsDigit(text[k])
  {
    var piece := Before(Strip(text, LabelChars), Separator);
    assert forall k :: 0 <= k < |piece| ==> piece[k] == text[LeadingRun(text, LabelChars) + k];
    ParseInt(piece)
  }

  /** `t` is an optional `+` or `-` and a non-empty run of ASCII digits,
      whose decimal value with that sign is `n`. */
  ghost predicate SignedNumeral(t: string, n: int)
  {
    exists sign: string, d: string :: sign in {"", "+", "-"} && IsDigits(d) && t == sign + d &&
      n == (if sign == "-" then -(DigitsValue(d) as int) else DigitsValue(d))
  }

  /** A sign and digits are read with their value. */
  lemma ParseSignedAccepts(sign: string, d: string)
    requires sign in {"", "+", "-"} && IsDigits(d)
    ensures ParseSigned(sign + d) == Some(if sign == "-" then -(DigitsValue(d) as int) else DigitsValue(d))
  {
    var t := sign + d;
    if sign == "" {
      assert t == d && IsDigit(t[0]);
    } else if sign == "+" {
      assert t[0] == '+' && t[1..] == d;
    } else {
      assert sign == "-";
      assert t[0] == '-' && t[1..] == d;
    }
  }

  /** What `int()` accepts once the whitespace is gone: an optional `+` or
      `-` and a non-empty run of ASCII digits, read as a decimal number with
      that sign; every other text makes it raise. */
  lemma ParseSignedGrammar(t: string, n: int)
    ensures ParseSigned(t) == Some(n) <==> SignedNumeral(t, n)
  {
    if ParseSigned(t) == Some(n) {
      var sign, d := if t[0] == '+' || t[0] == '-' then t[..1] else "", if t[0] == '+' || t[0] == '-' then t[1..] else t;
      assert sign == [] || sign == [t[0]];
      assert t == sign + d;
      assert sign in {"", "+", "-"} && IsDigits(d);
    }
    if SignedNumeral(t, n) {
      var sign: string, d: string :| sign in {"", "+", "-"} && IsDigits(d) && t == sign + d &&
        n == (if sign == "-" then -(DigitsValue(d) as int) else DigitsValue(d));
      ParseSignedAccepts(sign, d);
    }
  }

  function DigitChar(d: nat): (c: char)
    requires d < 10
    ensures IsDigit(c) && c as int - '0' as int == d
  {
    ('0' as int + d) as char
  }

  /** Decimal rendering of a count, as the portal prints it. */
  function ShowNat(n: nat): (s: string)
    ensures IsDigits(s)
    decreases n
  {
    if n < 10 then [DigitChar(n)] else ShowNat(n / 10) + [DigitChar(n % 10)]
  }

  function ShowInt(n: int): (s: string)
    ensures s != [] && IsDigit(s[|s| - 1])
    ensures forall k :: 0 <= k < |s| ==> s[k] == '-' || IsDigit(s[k])
  {
    if n < 0 then "-" + ShowNat(-n) else ShowNat(n)
  }

  lemma {:induction false} DigitsValueShowNat(n: nat)
    ensures DigitsValue(ShowNat(n)) == n
    decreases n
  {
    if n >= 10 {
      var s := ShowNat(n);
      assert s[..|s| - 1] == ShowNat(n / 10);
      DigitsValueShowNat(n / 10);
    }
  }

  /** `int()` on a bare run of digits. */
  lemma ParseDigits(d: string, n: nat)
    requires IsDigits(d) && DigitsValue(d) == n
    ensures ParseSigned(d) == Some(n)
  {
  }

  /** `int()` on a minus sign followed by digits. */
  lemma ParseNegated(d: string, n: nat)
    requires IsDigits(d) && DigitsValue(d) == n
    ensures ParseSigned("-" + d) == Some(-(n as int))
  {
    assert ("-" + d)[1..] == d;
  }

  /** `int()` reads back every rendered integer. */
  lemma ParseShowInt(n: int)
    ensures ParseInt(ShowInt(n)) == Some(n)
  {
    var s := ShowInt(n);
    ShowIntNoLabel(n);
    StripKeeps(s, Whitespace);
    if n < 0 {
      DigitsValueShowNat(-n);
      ParseNegated(ShowNat(-n), -n);
    } else {
      DigitsValueShowNat(n);
      ParseDigits(ShowNat(n), n);
    }
  }

  /** `int()` reads a `+` sign in front of the digits. */
  lemma ParsePlusSign(n: nat)
    ensures ParseInt("+" + ShowNat(n)) == Some(n)
  {
    var s := "+" + ShowNat(n);
    DigitsValueShowNat(n);
    assert s[1..] == ShowNat(n) && s[|s| - 1] == ShowNat(n)[|ShowNat(n)| - 1];
    StripKeeps(s, Whitespace);
  }

  /** `int()` skips whitespace of any kind on both sides of the number. */
  lemma ParseAroundWhitespace(before: string, n: int, after: string)
    requires forall i :: 0 <= i < |before| ==> before[i] in Whitespace
    requires forall i :: 0 <= i < |after| ==> after[i] in Whitespace
    ensures ParseInt(before + ShowInt(n) + after) == Some(n)
  {
    ShowIntNoLabel(n);
    ParseShowInt(n);
    StripKeeps(ShowInt(n), Whitespace);
    StripAround(before, ShowInt(n), after, Whitespace);
  }

  /** Anything but whitespace after the digits makes `int()` raise. */
  lemma ParseRejectsTrailingJunk(n: int, c: char)
    requires !IsDigit(c) && c !in Whitespace
    ensures ParseInt(ShowInt(n) + [c]) == None
  {
    var s := ShowInt(n) + [c];
    ShowIntNoLabel(n);
    assert s[0] == ShowInt(n)[0] && s[|s| - 1] == c;
    StripKeeps(s, Whitespace);
    assert !IsDigit(s[|s| - 1]);
    assert |s| >= 2 ==> !IsDigits(s[1..]) by {
      if |s| >= 2 {
        assert s[1..][|s| - 2] == c;
      }
    }
  }

  /** A bare sign is no integer. */
  lemma ParseRejectsBareSign()
    ensures ParseInt("-") == None && ParseInt("+") == None
  {
    StripKeeps("-", Whitespace);
    StripKeeps("+", Whitespace);
  }

  /** Set characters around text that starts and ends outside the set are
      all stripped, on both sides and in whatever order they come, and
      nothing of the text is. */
  lemma StripAround(prefix: string, rest: string, suffix: string, chars: set<char>)
    requires forall i :: 0 <= i < |prefix| ==> prefix[i] in chars
    requires forall i :: 0 <= i < |suffix| ==> suffix[i] in chars
    requires rest != [] && rest[0] !in chars && rest[|rest| - 1] !in chars
    ensures Strip(prefix + rest + suffix, chars) == rest
  {
    var s := prefix + rest + suffix;
    assert s == prefix + (rest + suffix);
    SkipsPrefix(prefix, rest + suffix, chars);
    var r := Strip(s, chars);
    assert s[|prefix| + |rest| - 1] !in chars;
    assert r == s[|prefix|..|prefix| + |rest|] == rest;
  }

  /** The three stages of app.py:315, one after the other. */
  lemma ParseSeatStages(text: string, stripped: string, piece: string)
    requires Strip(text, LabelChars) == stripped
    requires Before(stripped, Separator) == piece
    ensures ParseSeat(text) == ParseInt(piece)
  {
  }

  /** A dialog made of label characters, the count, the separator and the
      total yields the count. */
  lemma ParseSeatFormat(prefix: string, count: string, total: string, suffix: string, n: int)
    requires forall i :: 0 <= i < |prefix| ==> prefix[i] in LabelChars
    requires forall i :: 0 <= i < |suffix| ==> suffix[i] in LabelChars
    requires count != [] && count[0] !in LabelChars && '/' !in count
    requires ParseInt(count) == Some(n)
    requires IsDigits(total)
    ensures ParseSeat(prefix + count + " / " + total + suffix) == Some(n)
  {
    var tail := " " + total;
    var rest := count + Separator + tail;
    assert prefix + count + " / " + total + suffix == prefix + rest + suffix;
    assert rest[0] == count[0] && rest[|rest| - 1] == total[|total| - 1];
    StripAround(prefix, rest, suffix, LabelChars);
    BeforeSeparator(count, tail);
    ParseSeatStages(prefix + rest + suffix, rest, count);
  }

  /** Every character of the portal's label is one `strip` removes. */
  lemma SeatLabelStripped()
    ensures forall i :: 0 <= i < |SeatLabel| ==> SeatLabel[i] in LabelChars
  {
  }

  /** A rendered integer has no label character in it. */
  lemma ShowIntNoLabel(n: int)
    ensures var s := ShowInt(n); s != [] && s[0] !in LabelChars && '/' !in s
    ensures var s := ShowInt(n); s[0] !in Whitespace && s[|s| - 1] !in Whitespace
  {
    var s := ShowInt(n);
    assert s[0] == '-' || IsDigit(s[0]);
    assert forall k :: 0 <= k < |s| ==> s[k] != '/';
  }

  /** A dialog in the portal's format yields the remaining-seat count, for any
      count and any total. */
  lemma ParseSeatReadsRemaining(remaining: int, total: nat)
    ensures ParseSeat(SeatLabel + ShowInt(remaining) + " / " + ShowNat(total)) == Some(remaining)
  {
    var count, shown := ShowInt(remaining), ShowNat(total);
    ParseShowInt(remaining);
    SeatLabelStripped();
    ShowIntNoLabel(remaining);
    ParseSeatFormat(SeatLabel, count, shown, "", remaining);
    assert SeatLabel + count + " / " + shown + "" == SeatLabel + count + " / " + shown;
  }

  /** The dialog of the portal's usual format. */
  lemma ParseSeatExample()
    ensures ParseSeat(SeatLabel + "5 / 30") == Some(5)
  {
    assert "5" + Separator + " 30" == "5 / 30";
    assert '5' !in Whitespace && '5' !in LabelChars && '0' !in LabelChars;
    assert DigitsValue("5") == 5;
    ParseDigits("5", 5);
    StripKeeps("5", Whitespace);
    StripAround(SeatLabel, "5 / 30", "", LabelChars);
    assert SeatLabel + "5 / 30" + "" == SeatLabel + "5 / 30";
    BeforeSeparator("5", " 30");
    ParseSeatStages(SeatLabel + "5 / 30", "5 / 30", "5");
  }

  /** `strip` works on both ends: label characters after the total are
      dropped too, and the count is still read. */
  lemma TrailingLabelStripped(remaining: int, total: nat, suffix: string)
    requires forall i :: 0 <= i < |suffix| ==> suffix[i] in LabelChars
    ensures ParseSeat(SeatLabel + ShowInt(remaining) + " / " + ShowNat(total) + suffix) == Some(remaining)
  {
    ParseShowInt(remaining);
    SeatLabelStripped();
    ShowIntNoLabel(remaining);
    ParseSeatFormat(SeatLabel, ShowInt(remaining), ShowNat(total), suffix, remaining);
  }

  /** Digits, a slash and digits are not an integer, and hold no space. */
  lemma SlashedNotInt(c: string, t: string)
    requires IsDigits(c) && IsDigits(t)
    ensures ParseInt(c + "/" + t) == None
    ensures ' ' !in c + "/" + t
  {
    var s := c + "/" + t;
    assert s[0] == c[0] && s[|s| - 1] == t[|t| - 1];
    StripKeeps(s, Whitespace);
    assert s[|c|] == '/';
    assert forall k :: 0 <= k < |s| ==> s[k] == '/' || IsDigit(s[k]);
  }

  /** Without a space before the slash there is no split, and app.py:315
      raises on digits, a slash and digits. */
  lemma UnspacedSlashFails(count: string, total: string)
    requires IsDigits(count) && IsDigits(total)
    ensures ParseSeat(SeatLabel + count + "/" + total) == None
  {
    var rest := count + "/" + total;
    assert SeatLabel + count + "/" + total == SeatLabel + rest;
    assert rest[0] == count[0] && rest[|rest| - 1] == total[|total| - 1];
    SeatLabelStripped();
    StripAround(SeatLabel, rest, "", LabelChars);
    assert SeatLabel + rest + "" == SeatLabel + rest;
    SlashedNotInt(count, total);
    BeforeWithoutSpace(rest);
    ParseSeatStages(SeatLabel + rest, rest, rest);
  }

  /** A space in front of a number is skipped by `int()`. */
  lemma SpaceBeforeInt(s: string)
    requires s != [] && s[0] !in Whitespace && s[|s| - 1] !in Whitespace
    ensures ParseInt(" " + s) == ParseInt(s)
  {
    StripAround(" ", s, "", Whitespace);
    assert " " + s + "" == " " + s;
    StripKeeps(s, Whitespace);
  }

  /** A space between the label and the count is left to `int()`, which
      skips it. */
  lemma SpacedCount(count: string, total: string, n: int)
    requires count != [] && count[0] !in Whitespace && count[|count| - 1] !in Whitespace
    requires '/' !in count && ParseInt(count) == Some(n)
    requires IsDigits(total)
    ensures ParseSeat(SeatLabel + (" " + count) + " / " + total) == Some(n)
  {
    assert ' ' !in LabelChars;
    SpaceBeforeInt(count);
    var spaced := " " + count;
    assert spaced[0] == ' ' && spaced[1..] == count;
    SeatLabelStripped();
    ParseSeatFormat(SeatLabel, spaced, total, "", n);
    assert SeatLabel + spaced + " / " + total + "" == SeatLabel + spaced + " / " + total;
  }

  /** A space and a sign between the label and the digits are accepted:
      `int()` skips the space and reads the sign. */
  lemma SpacedSignedCount(n: int, total: string)
    requires IsDigits(total)
    ensures ParseSeat(SeatLabel + (" " + ShowInt(n)) + " / " + total) == Some(n)
  {
    ShowIntNoLabel(n);
    ParseShowInt(n);
    SpacedCount(ShowInt(n), total, n);
  }
}
