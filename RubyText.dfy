/**
 * The handful of Ruby String and Array operations the client relies on,
 * stated once: awk-style whitespace splitting (`split` / `split(' ')`),
 * splitting on a one-character separator (`split(',')`, `split('/')`),
 * `join`, ASCII `upcase` and substring search.
 */
module RubyText {

  /** The whitespace characters of Ruby's awk-style split: space, tab, LF, VT, FF, CR. */
  predicate IsSpace(c: char) {
    c == ' ' || c == '\t' || c == '\n' || c == '\U{000B}' || c == '\U{000C}' || c == '\r'
  }

  /** A token of the awk-style split: non-empty and free of whitespace. */
  predicate IsToken(w: string) {
    |w| > 0 && forall i :: 0 <= i < |w| ==> !IsSpace(w[i])
  }

  /** The longest whitespace-free prefix of `s`. */
  function Word(s: string): (w: string)
    ensures |w| <= |s| && w == s[..|w|]
    ensures forall i :: 0 <= i < |w| ==> !IsSpace(w[i])
    ensures |w| < |s| ==> IsSpace(s[|w|])
  {
    if s == [] || IsSpace(s[0]) then "" else [s[0]] + Word(s[1..])
  }

  /**
   * `s.split` and `s.split(' ')`: the maximal runs of non-whitespace
   * characters, in order; leading, trailing and repeated whitespace never
   * yields an empty token.
   */
  function Words(s: string): (ws: seq<string>)
    decreases |s|
  {
    if s == [] then []
    else if IsSpace(s[0]) then Words(s[1..])
    else
      var w := Word(s);
      [w] + Words(s[|w|..])
  }

  /** Every word is a token: leading, trailing and repeated whitespace never yields an empty or spaced one. */
  lemma {:induction false} WordsAreTokens(s: string)
    ensures forall i :: 0 <= i < |Words(s)| ==> IsToken(Words(s)[i])
    decreases |s|
  {
    if s != [] {
      if IsSpace(s[0]) {
        WordsAreTokens(s[1..]);
      } else {
        WordsAreTokens(s[|Word(s)|..]);
      }
    }
  }

  /** `parts.join(sep)`. */
  function Join(parts: seq<string>, sep: string): string {
    if parts == [] then ""
    else if |parts| == 1 then parts[0]
    else parts[0] + sep + Join(parts[1..], sep)
  }

  lemma {:induction false} WordOfPrefix(w: string, t: string)
    requires forall i :: 0 <= i < |w| ==> !IsSpace(w[i])
    requires t == [] || IsSpace(t[0])
    ensures Word(w + t) == w
  {
    if w != [] {
      assert (w + t)[0] == w[0];
      assert (w + t)[1..] == w[1..] + t;
      WordOfPrefix(w[1..], t);
    } else {
      assert w + t == t;
    }
  }

  /** Joining tokens with single spaces and splitting again gives the tokens back. */
  lemma {:induction false} WordsOfJoin(ws: seq<string>)
    requires forall i :: 0 <= i < |ws| ==> IsToken(ws[i])
    ensures Words(Join(ws, " ")) == ws
  {
    if ws == [] {
    } else if |ws| == 1 {
      var w := ws[0];
      WordOfPrefix(w, "");
      assert w + "" == w;
      assert w[|w|..] == "";
    } else {
      var w, rest := ws[0], Join(ws[1..], " ");
      var s := w + " " + rest;
      assert Join(ws, " ") == s;
      assert s == w + (" " + rest);
      WordOfPrefix(w, " " + rest);
      assert s[|w|..] == " " + rest;
      assert (" " + rest)[1..] == rest;
      WordsOfJoin(ws[1..]);
      assert Words(s) == [w] + ws[1..];
    }
  }

  /** The pieces of `s` between occurrences of `c`, empty pieces included. */
  function Pieces(s: string, c: char): (ps: seq<string>)
    ensures |ps| >= 1
  {
    if s == [] then [""]
    else
      var rest := Pieces(s[1..], c);
      if s[0] == c then [""] + rest else [[s[0]] + rest[0]] + rest[1..]
  }

  /** The pieces and the separators between them are the whole string. */
  lemma {:induction false} JoinPieces(s: string, c: char)
    ensures Join(Pieces(s, c), [c]) == s
  {
    if s != [] {
      var rest := Pieces(s[1..], c);
      JoinPieces(s[1..], c);
      if s[0] == c {
        assert ([""] + rest)[1..] == rest;
        assert s == [c] + s[1..];
      } else if |rest| == 1 {
        assert s == [s[0]] + s[1..];
      } else {
        var ps := [[s[0]] + rest[0]] + rest[1..];
        assert ps[1..] == rest[1..];
        assert Join(rest, [c]) == rest[0] + [c] + Join(rest[1..], [c]);
        assert s == [s[0]] + s[1..];
      }
    }
  }

  /** `ps` without its trailing empty strings. */
  function DropTrailingEmpty(ps: seq<string>): seq<string> {
    if ps == [] || ps[|ps| - 1] != "" then ps else DropTrailingEmpty(ps[..|ps| - 1])
  }

  /** What is dropped is a run of empty strings at the end, and what is kept does not end in one. */
  lemma {:induction false} DropTrailingEmptyTrims(ps: seq<string>)
    ensures var r := DropTrailingEmpty(ps);
      && |r| <= |ps| && r == ps[..|r|]
      && (forall i :: |r| <= i < |ps| ==> ps[i] == "")
      && (r == [] || r[|r| - 1] != "")
  {
    if ps != [] && ps[|ps| - 1] == "" {
      DropTrailingEmptyTrims(ps[..|ps| - 1]);
    }
  }

  /**
   * `s.split(c)` for a one-character separator: every piece between
   * separators in order, interior and leading empty pieces kept, trailing
   * empty pieces dropped (so `"".split(c)` is empty).
   */
  function Split(s: string, c: char): seq<string> {
    DropTrailingEmpty(Pieces(s, c))
  }

  /** No piece contains the separator. */
  lemma {:induction false} PiecesAvoid(s: string, c: char)
    ensures forall i :: 0 <= i < |Pieces(s, c)| ==> c !in Pieces(s, c)[i]
  {
    if s != [] {
      PiecesAvoid(s[1..], c);
    }
  }

  /** `split` keeps a prefix of the pieces, so no field contains the separator. */
  lemma SplitAvoids(s: string, c: char)
    ensures forall i :: 0 <= i < |Split(s, c)| ==> c !in Split(s, c)[i]
  {
    PiecesAvoid(s, c);
    DropTrailingEmptyTrims(Pieces(s, c));
  }

  lemma {:induction false} PiecesOfJoined(a: string, c: char, rest: string)
    requires c !in a
    ensures Pieces(a + [c] + rest, c) == [a] + Pieces(rest, c)
  {
    if a == [] {
      assert a + [c] + rest == [c] + rest;
      assert ([c] + rest)[1..] == rest;
    } else {
      var s := a + [c] + rest;
      assert s[0] == a[0] && s[1..] == a[1..] + [c] + rest;
      PiecesOfJoined(a[1..], c, rest);
      assert [a[0]] + a[1..] == a;
    }
  }

  /** Joining pieces that lack the separator and splitting again gives them back. */
  lemma {:induction false} PiecesOfJoin(parts: seq<string>, c: char)
    requires |parts| > 0
    requires forall i :: 0 <= i < |parts| ==> c !in parts[i]
    ensures Pieces(Join(parts, [c]), c) == parts
  {
    if |parts| == 1 {
      PiecesOfNoSeparator(parts[0], c);
    } else {
      PiecesOfJoin(parts[1..], c);
      PiecesOfJoined(parts[0], c, Join(parts[1..], [c]));
    }
  }

  lemma {:induction false} PiecesOfNoSeparator(s: string, c: char)
    requires c !in s
    ensures Pieces(s, c) == [s]
  {
    if s != [] {
      PiecesOfNoSeparator(s[1..], c);
      assert [s[0]] + s[1..] == s;
    }
  }

  /** A non-empty string without the separator splits into itself alone. */
  lemma SplitNoSeparator(s: string, c: char)
    requires c !in s && s != ""
    ensures Split(s, c) == [s]
  {
    PiecesOfNoSeparator(s, c);
  }

  /** ASCII `upcase` of one character. */
  function UpcaseChar(c: char): (u: char)
    ensures 'a' <= c <= 'z' ==> u as int == c as int - 32
    ensures !('a' <= c <= 'z') ==> u == c
  {
    if 'a' <= c <= 'z' then (c as int - 32) as char else c
  }

  /** ASCII `String#upcase`. */
  function Upcase(s: string): (u: string)
    ensures |u| == |s|
    ensures forall i :: 0 <= i < |s| ==> u[i] == UpcaseChar(s[i])
  {
    seq(|s|, i requires 0 <= i < |s| => UpcaseChar(s[i]))
  }

  /** Upcasing twice is upcasing once. */
  lemma UpcaseIdempotent(s: string)
    ensures Upcase(Upcase(s)) == Upcase(s)
  {
  }

  /** `pat` occurs in `s` starting at index `i`. */
  predicate OccursAt(s: string, pat: string, i: int) {
    0 <= i <= |s| - |pat| && s[i..i + |pat|] == pat
  }

  /** `s[pat]` is non-nil: `pat` occurs somewhere in `s`. */
  predicate Contains(s: string, pat: string) {
    exists i | 0 <= i <= |s| - |pat| :: OccursAt(s, pat, i)
  }
}
