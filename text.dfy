/** String operations the drivers borrow from Python: `str.split` and
    `str.join` with a one-character separator, the `split('\n')` + `pop()`
    line splitting, the `in` substring test, `str(int)` and
    `os.path.join`. Strings are sequences of characters; no decoding. */
module Text {

  /** Number of occurrences of `c` in `s`. */
  function Count(s: string, c: char): nat
  {
    if s == [] then 0 else (if s[0] == c then 1 else 0) + Count(s[1..], c)
  }

  /** `sep.join(parts)`: the parts with one separator between neighbours. */
  function Join(parts: seq<string>, sep: char): string
  {
    if |parts| == 0 then ""
    else if |parts| == 1 then parts[0]
    else parts[0] + [sep] + Join(parts[1..], sep)
  }

  /** `s.split(sep)`: the maximal separator-free pieces between separators;
      never empty (`"".split(" ") == [""]`). */
  function Split(s: string, sep: char): (r: seq<string>)
    ensures |r| >= 1
  {
    if s == [] then [""]
    else
      var rest := Split(s[1..], sep);
      if s[0] == sep then [""] + rest
      else [[s[0]] + rest[0]] + rest[1..]
  }

  /** Every piece of a split is free of the separator. */
  lemma {:induction false} SplitPiecesFree(s: string, sep: char)
    ensures forall i :: 0 <= i < |Split(s, sep)| ==> sep !in Split(s, sep)[i]
  {
    if s != [] {
      SplitPiecesFree(s[1..], sep);
    }
  }

  /** A split yields one piece more than there are separators. */
  lemma {:induction false} SplitCount(s: string, sep: char)
    ensures |Split(s, sep)| == Count(s, sep) + 1
  {
    if s != [] {
      SplitCount(s[1..], sep);
    }
  }

  /** Joining the pieces of a split gives back the original string. */
  lemma {:induction false} JoinSplit(s: string, sep: char)
    ensures Join(Split(s, sep), sep) == s
  {
    if s != [] {
      var rest := Split(s[1..], sep);
      JoinSplit(s[1..], sep);
      if s[0] == sep {
        assert Split(s, sep) == [""] + rest;
        assert ([""] + rest)[1..] == rest;
      } else if |rest| == 1 {
        assert Split(s, sep) == [[s[0]] + rest[0]];
      } else {
        var r := Split(s, sep);
        assert r == [[s[0]] + rest[0]] + rest[1..];
        assert r[1..] == rest[1..];
        assert Join(rest, sep) == rest[0] + [sep] + Join(rest[1..], sep);
        assert [s[0]] + s[1..] == s;
      }
    }
  }

  /** Splitting a string that starts with a separator-free `x` glues `x`
      to the first piece of the rest. */
  lemma {:induction false} SplitAfterFree(x: string, t: string, sep: char)
    requires sep !in x
    ensures Split(x + t, sep) == [x + Split(t, sep)[0]] + Split(t, sep)[1..]
  {
    if x != [] {
      SplitAfterFree(x[1..], t, sep);
      assert x[0] in x;
      assert (x + t)[0] == x[0] != sep;
      assert (x + t)[1..] == x[1..] + t;
      var rest := Split(x[1..] + t, sep);
      assert Split(x + t, sep) == [[x[0]] + rest[0]] + rest[1..];
      assert [x[0]] + (x[1..] + Split(t, sep)[0]) == x + Split(t, sep)[0];
    } else {
      assert x + t == t;
      assert x + Split(t, sep)[0] == Split(t, sep)[0];
      assert [Split(t, sep)[0]] + Split(t, sep)[1..] == Split(t, sep);
    }
  }

  /** Splitting a join of separator-free parts gives back the parts. */
  lemma {:induction false} SplitJoin(parts: seq<string>, sep: char)
    requires |parts| >= 1
    requires forall i :: 0 <= i < |parts| ==> sep !in parts[i]
    ensures Split(Join(parts, sep), sep) == parts
  {
    if |parts| == 1 {
      SplitAfterFree(parts[0], "", sep);
      assert parts[0] + "" == parts[0];
      assert Split("", sep) == [""];
      assert Join(parts, sep) == parts[0];
    } else {
      var tail := Join(parts[1..], sep);
      SplitJoin(parts[1..], sep);
      SplitAfterFree(parts[0], [sep] + tail, sep);
      assert parts[0] + [sep] + tail == parts[0] + ([sep] + tail);
      assert Split([sep] + tail, sep) == [""] + Split(tail, sep) by {
        assert ([sep] + tail)[1..] == tail;
      }
      assert Join(parts, sep) == parts[0] + ([sep] + tail);
      assert parts[0] + "" == parts[0];
      assert ([""] + parts[1..])[1..] == parts[1..];
      assert [parts[0]] + parts[1..] == parts;
    }
  }

  /** The lines of a process's output as the drivers compute them:
      `text.split('\n')` followed by `pop()` of the last piece. */
  function Lines(text: string): (r: seq<string>)
  {
    var pieces := Split(text, '\n');
    pieces[..|pieces| - 1]
  }

  /** Concatenation of lines, each followed by a newline. */
  function Unlines(lines: seq<string>): string
  {
    if lines == [] then "" else lines[0] + "\n" + Unlines(lines[1..])
  }

  /** There are exactly as many lines as newline characters. */
  lemma LinesCount(text: string)
    ensures |Lines(text)| == Count(text, '\n')
  {
    SplitCount(text, '\n');
  }

  lemma {:induction false} JoinAsUnlines(pieces: seq<string>)
    requires |pieces| >= 1
    ensures Join(pieces, '\n') == Unlines(pieces[..|pieces| - 1]) + pieces[|pieces| - 1]
  {
    if |pieces| > 1 {
      JoinAsUnlines(pieces[1..]);
      assert pieces[1..][..|pieces| - 2] == pieces[..|pieces| - 1][1..];
    }
  }

  /** The output is its lines, each newline-terminated, followed by the
      newline-free text after the last newline, which the drivers drop. */
  lemma LinesAndTail(text: string)
    ensures var pieces := Split(text, '\n');
            text == Unlines(Lines(text)) + pieces[|pieces| - 1]
            && '\n' !in pieces[|pieces| - 1]
  {
    JoinSplit(text, '\n');
    JoinAsUnlines(Split(text, '\n'));
    SplitPiecesFree(text, '\n');
  }

  /** Output that is empty or ends in a newline is exactly its lines. */
  lemma LinesRoundTrip(text: string)
    requires text == [] || text[|text| - 1] == '\n'
    ensures Unlines(Lines(text)) == text
    ensures forall i :: 0 <= i < |Lines(text)| ==> '\n' !in Lines(text)[i]
  {
    LinesAndTail(text);
    SplitPiecesFree(text, '\n');
    var pieces := Split(text, '\n');
    var tail := pieces[|pieces| - 1];
    LastOfConcat(Unlines(Lines(text)), tail);
    assert tail == [];
    assert Unlines(Lines(text)) + tail == Unlines(Lines(text));
  }

  lemma LastOfConcat(u: string, tail: string)
    ensures tail != [] ==> (u + tail)[|u + tail| - 1] == tail[|tail| - 1] && tail[|tail| - 1] in tail
  {
  }

  /** Output whose last character is not a newline loses its final,
      unterminated line. */
  lemma LinesDropUnterminatedTail(text: string)
    requires text != [] && text[|text| - 1] != '\n'
    ensures |Unlines(Lines(text))| < |text|
  {
    LinesAndTail(text);
    var pieces := Split(text, '\n');
    if pieces[|pieces| - 1] == [] {
      assert text == Unlines(Lines(text));
      UnlinesEndsInNewline(Lines(text));
    }
  }

  lemma {:induction false} UnlinesEndsInNewline(lines: seq<string>)
    requires lines != []
    ensures var u := Unlines(lines); |u| > 0 && u[|u| - 1] == '\n'
  {
    if |lines| > 1 {
      UnlinesEndsInNewline(lines[1..]);
    }
  }

  /** `p` occurs in `s` starting at index `i`. */
  ghost predicate OccursAt(s: string, p: string, i: nat)
  {
    i + |p| <= |s| && s[i..i + |p|] == p
  }

  /** Python's `p in s` for strings. */
  predicate Contains(s: string, p: string)
    ensures Contains(s, p) <==> exists i: nat :: OccursAt(s, p, i)
  {
    if |s| < |p| then false
    else if s[..|p|] == p then assert OccursAt(s, p, 0); true
    else
      var r := Contains(s[1..], p);
      assert r ==> exists i: nat :: OccursAt(s, p, i) by {
        if r {
          var j: nat :| OccursAt(s[1..], p, j);
          assert s[1..][j..j + |p|] == s[j + 1..j + 1 + |p|];
          assert OccursAt(s, p, j + 1);
        }
      }
      assert (exists i: nat :: OccursAt(s, p, i)) ==> r by {
        if exists i: nat :: OccursAt(s, p, i) {
          var i: nat :| OccursAt(s, p, i);
          assert i != 0;
          assert s[1..][i - 1..i - 1 + |p|] == s[i..i + |p|];
          assert OccursAt(s[1..], p, i - 1);
        }
      }
      r
  }

  /** Decimal digit character. */
  function DigitChar(d: nat): (c: char)
    requires d < 10
    ensures '0' <= c <= '9'
  {
    "0123456789"[d]
  }

  /** `str(n)` for a non-negative integer: its decimal digits. */
  function NatToStr(n: nat): (r: string)
    ensures |r| >= 1
    ensures forall i :: 0 <= i < |r| ==> '0' <= r[i] <= '9'
  {
    if n < 10 then [DigitChar(n)] else NatToStr(n / 10) + [DigitChar(n % 10)]
  }

  /** Reads back a string of decimal digits. */
  function ParseNat(s: string): nat
    requires forall i :: 0 <= i < |s| ==> '0' <= s[i] <= '9'
  {
    if s == [] then 0 else 10 * ParseNat(s[..|s| - 1]) + (s[|s| - 1] as int - '0' as int)
  }

  /** The decimal rendering loses nothing: it reads back as the number. */
  lemma {:induction false} NatToStrRoundTrip(n: nat)
    ensures ParseNat(NatToStr(n)) == n
  {
    if n >= 10 {
      NatToStrRoundTrip(n / 10);
      var s := NatToStr(n);
      assert s[..|s| - 1] == NatToStr(n / 10);
    }
  }

  /** `str(n)` for any integer: a minus sign before the digits when negative.
      It never contains a space. */
  function IntToStr(n: int): (r: string)
    ensures |r| >= 1 && ' ' !in r
  {
    if n < 0 then "-" + NatToStr(-n) else NatToStr(n)
  }

  /** `os.path.join(a, b)` on POSIX for two components. */
  function PathJoin(a: string, b: string): (r: string)
    ensures |b| <= |r| && r[|r| - |b|..] == b
  {
    if b != [] && b[0] == '/' then b
    else if a == [] || a[|a| - 1] == '/' then a + b
    else a + "/" + b
  }
}
