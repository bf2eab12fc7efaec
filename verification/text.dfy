/**
 * The handful of Python `str` operations the core relies on, over `string`
 * (a `seq<char>`): `sep.join(parts)`, `s.split(sep)` for a one-character
 * separator, `str()` of an integer and `str.lower()`.
 */
module Text {

  /** `sep.join(parts)`: the parts with one `sep` between neighbours. */
  function Join(parts: seq<string>, sep: string): string
  {
    if parts == [] then ""
    else if |parts| == 1 then parts[0]
    else parts[0] + sep + Join(parts[1..], sep)
  }

  /** Joining two non-empty runs of parts puts exactly one separator between them. */
  lemma {:induction false} JoinAppend(a: seq<string>, b: seq<string>, sep: string)
    requires a != [] && b != []
    ensures Join(a + b, sep) == Join(a, sep) + sep + Join(b, sep)
  {
    if |a| == 1 {
      assert a + b == [a[0]] + b;
    } else {
      assert (a + b)[1..] == a[1..] + b;
      JoinAppend(a[1..], b, sep);
    }
  }

  /**
   * `s.split(sep)`: the maximal runs between separators. As in Python there
   * is always at least one part, and joining the parts back gives `s`.
   */
  function Split(s: string, sep: char): (parts: seq<string>)
    ensures |parts| >= 1
    ensures forall i :: 0 <= i < |parts| ==> sep !in parts[i]
    ensures Join(parts, [sep]) == s
    decreases |s|
  {
    if s == [] then [""]
    else
      var rest := Split(s[1..], sep);
      if s[0] == sep then
        assert [""] + rest == [[]] + rest;
        [""] + rest
      else
        var parts := [[s[0]] + rest[0]] + rest[1..];
        assert parts[1..] == rest[1..];
        assert |rest| > 1 ==> Join(rest, [sep]) == rest[0] + [sep] + Join(rest[1..], [sep]);
        parts
  }

  /** Splitting a text whose first run has no separator keeps that run glued to the next part. */
  lemma {:induction false} SplitPrefix(a: string, rest: string, sep: char)
    requires sep !in a
    ensures Split(a + rest, sep) == [a + Split(rest, sep)[0]] + Split(rest, sep)[1..]
  {
    var s := Split(rest, sep);
    if a == [] {
      assert a + rest == rest && a + s[0] == s[0];
      assert [s[0]] + s[1..] == s;
    } else {
      assert (a + rest)[0] == a[0] && (a + rest)[1..] == a[1..] + rest;
      SplitPrefix(a[1..], rest, sep);
      var inner := Split(a[1..] + rest, sep);
      assert inner == [a[1..] + s[0]] + s[1..];
      assert Split(a + rest, sep) == [[a[0]] + inner[0]] + inner[1..];
      assert [a[0]] + (a[1..] + s[0]) == a + s[0];
      assert inner[1..] == s[1..];
    }
  }

  /** A text without the separator splits into itself alone. */
  lemma SplitWithoutSeparator(s: string, sep: char)
    requires sep !in s
    ensures Split(s, sep) == [s]
  {
    SplitPrefix(s, "", sep);
    assert s + "" == s;
  }

  /** Round trip: parts free of the separator are recovered by splitting their join. */
  lemma {:induction false} SplitJoin(parts: seq<string>, sep: char)
    requires |parts| >= 1
    requires forall i :: 0 <= i < |parts| ==> sep !in parts[i]
    ensures Split(Join(parts, [sep]), sep) == parts
  {
    if |parts| == 1 {
      SplitPrefix(parts[0], "", sep);
      assert parts[0] + "" == parts[0];
    } else {
      var tail := Join(parts[1..], [sep]);
      SplitJoin(parts[1..], sep);
      assert Join(parts, [sep]) == parts[0] + ([sep] + tail);
      SplitPrefix(parts[0], [sep] + tail, sep);
      var t := [sep] + tail;
      assert t[0] == sep && t[1..] == tail;
      assert Split(t, sep) == [""] + Split(tail, sep);
      var st := [""] + parts[1..];
      assert st[0] == "" && st[1..] == parts[1..];
      assert parts[0] + "" == parts[0];
      assert [parts[0]] + parts[1..] == parts;
    }
  }

  /** Splitting at one separator splits the text on either side of it independently. */
  lemma SplitAround(a: string, b: string, sep: char)
    ensures Split(a + [sep] + b, sep) == Split(a, sep) + Split(b, sep)
  {
    var left, right := Split(a, sep), Split(b, sep);
    var parts := left + right;
    PartsFreeOfSeparator(left, right, sep);
    assert Join(parts, [sep]) == a + [sep] + b by {
      JoinAppend(left, right, [sep]);
    }
    SplitJoin(parts, sep);
  }

  lemma PartsFreeOfSeparator(left: seq<string>, right: seq<string>, sep: char)
    requires forall i :: 0 <= i < |left| ==> sep !in left[i]
    requires forall i :: 0 <= i < |right| ==> sep !in right[i]
    ensures forall i :: 0 <= i < |left + right| ==> sep !in (left + right)[i]
  {
  }

  /** Lines without a newline of their own come back one for one from `"\n".join(lines)`. */
  lemma LinesRoundTrip(lines: seq<string>)
    requires |lines| >= 1
    requires forall i :: 0 <= i < |lines| ==> '\n' !in lines[i]
    ensures Split(Join(lines, "\n"), '\n') == lines
  {
    assert "\n" == ['\n'];
    SplitJoin(lines, '\n');
  }

  /** The parts of each text, in order: splitting every text on its own. */
  function SplitEach(texts: seq<string>, sep: char): (parts: seq<seq<string>>)
    ensures |parts| == |texts|
    ensures forall i :: 0 <= i < |texts| ==> parts[i] == Split(texts[i], sep)
  {
    seq(|texts|, i requires 0 <= i < |texts| => Split(texts[i], sep))
  }

  /**
   * Splitting a join at its own separator, whatever the texts hold: each
   * text contributes its own parts, in order, so a text that holds the
   * separator contributes several.
   */
  lemma {:induction false} SplitOfJoin(texts: seq<string>, sep: char)
    requires texts != []
    ensures Split(Join(texts, [sep]), sep) == Concat(SplitEach(texts, sep))
  {
    var each := SplitEach(texts, sep);
    if |texts| == 1 {
      assert Concat(each) == each[0] + Concat(each[1..]);
      assert each[1..] == [];
    } else {
      var tail := Join(texts[1..], [sep]);
      assert Join(texts, [sep]) == texts[0] + [sep] + tail;
      SplitAround(texts[0], tail, sep);
      SplitOfJoin(texts[1..], sep);
      assert each[1..] == SplitEach(texts[1..], sep);
      assert Concat(each) == each[0] + Concat(each[1..]);
    }
  }

  function Last<T>(xs: seq<T>): T
    requires xs != []
  {
    xs[|xs| - 1]
  }

  /** Flattening a sequence of sequences, in order. */
  function Concat<T>(xss: seq<seq<T>>): seq<T>
  {
    if xss == [] then [] else xss[0] + Concat(xss[1..])
  }

  lemma ConcatPair<T>(a: seq<T>, b: seq<T>)
    ensures Concat([a, b]) == a + b
  {
    assert [a, b][1..] == [b];
    assert Concat([b]) == b + Concat([]);
  }

  lemma JoinThree(a: string, b: string, c: string, sep: string)
    ensures Join([a, b, c], sep) == a + sep + b + sep + c
  {
    assert [a, b, c][1..] == [b, c];
    assert [b, c][1..] == [c];
    assert Join([b, c], sep) == b + sep + c;
    assert a + sep + (b + sep + c) == a + sep + b + sep + c;
  }

  /** Three leading parts followed by a non-empty run of parts. */
  lemma JoinAfterThree(a: string, b: string, c: string, rest: seq<string>, sep: string)
    requires rest != []
    ensures Join([a, b, c] + rest, sep) == a + (sep + b + sep + c + sep) + Join(rest, sep)
  {
    JoinThree(a, b, c, sep);
    JoinAppend([a, b, c], rest, sep);
  }

  /** Each block joined on its own. */
  function JoinEach(blocks: seq<seq<string>>, sep: string): (joined: seq<string>)
    ensures |joined| == |blocks|
    ensures forall i :: 0 <= i < |blocks| ==> joined[i] == Join(blocks[i], sep)
  {
    if blocks == [] then [] else [Join(blocks[0], sep)] + JoinEach(blocks[1..], sep)
  }

  /** Joining a flattened run of non-empty blocks is joining the blocks' own joins. */
  lemma {:induction false} JoinConcat(blocks: seq<seq<string>>, sep: string)
    requires forall i :: 0 <= i < |blocks| ==> blocks[i] != []
    ensures Join(Concat(blocks), sep) == Join(JoinEach(blocks, sep), sep)
  {
    if |blocks| == 1 {
      assert Concat(blocks) == blocks[0] + [];
      assert blocks[0] + [] == blocks[0];
    } else if |blocks| > 1 {
      var rest := blocks[1..];
      JoinConcat(rest, sep);
      assert Concat(rest) != [] by {
        assert Concat(rest) == rest[0] + Concat(rest[1..]);
      }
      JoinAppend(blocks[0], Concat(rest), sep);
      assert JoinEach(blocks, sep)[1..] == JoinEach(rest, sep);
    }
  }

  /** Whatever holds of every element of every block holds of every element of the flattening. */
  lemma {:induction false} ConcatAll<T>(blocks: seq<seq<T>>, p: T -> bool)
    requires forall i, j :: 0 <= i < |blocks| && 0 <= j < |blocks[i]| ==> p(blocks[i][j])
    ensures forall k :: 0 <= k < |Concat(blocks)| ==> p(Concat(blocks)[k])
  {
    if blocks != [] {
      ConcatAll(blocks[1..], p);
      var c := Concat(blocks);
      forall k | 0 <= k < |c|
        ensures p(c[k])
      {
        if k >= |blocks[0]| {
          assert c[k] == Concat(blocks[1..])[k - |blocks[0]|];
        }
      }
    }
  }

  function DigitChar(d: nat): char
    requires d < 10
  {
    "0123456789"[d]
  }

  predicate IsDigit(c: char)
  {
    '0' <= c <= '9'
  }

  /** `str(n)` for a non-negative integer: its decimal digits, no leading zero. */
  function NatToString(n: nat): (r: string)
    ensures |r| >= 1 && forall i :: 0 <= i < |r| ==> IsDigit(r[i])
    ensures |r| > 1 ==> r[0] != '0'
  {
    if n < 10 then [DigitChar(n)] else NatToString(n / 10) + [DigitChar(n % 10)]
  }

  /** `str(i)` for any integer. */
  function IntToString(i: int): (r: string)
    ensures |r| >= 1 && '\n' !in r
  {
    if i < 0 then "-" + NatToString(-i) else NatToString(i)
  }

  /**
   * `str.lower()` as far as it can matter when the result is compared with an
   * ASCII text: ASCII capitals and U+212A KELVIN SIGN (the one non-ASCII
   * character whose lower case is an ASCII letter) are lowered, every other
   * character is kept.
   */
  function LowerChar(c: char): char
  {
    if 'A' <= c <= 'Z' then (c as int + 32) as char
    else if c == 'K' then 'k'
    else c
  }

  function Lower(s: string): (r: string)
  {
    seq(|s|, i requires 0 <= i < |s| => LowerChar(s[i]))
  }
}
