/** Splitting and joining text on single spaces, as JavaScript's
    `s.split(' ')` and `ws.join(' ')` do. */
module Text {

  /** `s.split(' ')`: the pieces between single spaces. Two adjacent spaces
      give an empty piece, and the result is never empty. */
  function Words(s: string): (ws: seq<string>)
    ensures |ws| >= 1
    ensures forall i :: 0 <= i < |ws| ==> ' ' !in ws[i]
  {
    if s == [] then [[]]
    else
      var rest := Words(s[1..]);
      if s[0] == ' ' then [[]] + rest
      else [[s[0]] + rest[0]] + rest[1..]
  }

  /** `ws.join(' ')`. */
  function Join(ws: seq<string>): string
    requires |ws| >= 1
  {
    if |ws| == 1 then ws[0] else ws[0] + " " + Join(ws[1..])
  }

  /** Joining the pieces of a split gives back the original text. */
  lemma {:induction false} JoinWords(s: string)
    ensures Join(Words(s)) == s
  {
    if s != [] {
      var rest := Words(s[1..]);
      JoinWords(s[1..]);
      if s[0] == ' ' {
        assert Words(s) == [[]] + rest;
        assert Join(Words(s)) == [] + " " + Join(rest);
        assert s == [s[0]] + s[1..];
      } else if |rest| == 1 {
        assert Words(s) == [[s[0]] + rest[0]];
        assert s == [s[0]] + s[1..];
      } else {
        var ws := Words(s);
        assert ws == [[s[0]] + rest[0]] + rest[1..];
        assert ws[1..] == rest[1..];
        calc {
          Join(ws);
          ([s[0]] + rest[0]) + " " + Join(rest[1..]);
          [s[0]] + (rest[0] + " " + Join(rest[1..]));
          [s[0]] + Join(rest);
          [s[0]] + s[1..];
          s;
        }
      }
    }
  }

  /** Text without a space is a single piece. */
  lemma {:induction false} WordsOfWord(w: string)
    requires ' ' !in w
    ensures Words(w) == [w]
  {
    if w != [] {
      WordsOfWord(w[1..]);
      assert [w[0]] + w[1..] == w;
    }
  }

  /** A space-free word followed by a space splits off as the first piece. */
  lemma {:induction false} WordsOfCons(w: string, t: string)
    requires ' ' !in w
    ensures Words(w + " " + t) == [w] + Words(t)
  {
    if w == [] {
      assert [] + " " + t == [' '] + t;
      assert (" " + t)[1..] == t;
    } else {
      var s := w + " " + t;
      assert s[1..] == w[1..] + " " + t;
      WordsOfCons(w[1..], t);
      assert [w[0]] + w[1..] == w;
    }
  }

  /** Splitting the join of space-free pieces gives back the pieces. */
  lemma {:induction false} WordsJoin(ws: seq<string>)
    requires |ws| >= 1
    requires forall i :: 0 <= i < |ws| ==> ' ' !in ws[i]
    ensures Words(Join(ws)) == ws
  {
    if |ws| == 1 {
      WordsOfWord(ws[0]);
    } else {
      WordsJoin(ws[1..]);
      WordsOfCons(ws[0], Join(ws[1..]));
      assert [ws[0]] + ws[1..] == ws;
    }
  }

  /** The first piece of a split is a space-free prefix that ends at the
      first space, or is the whole text when it has none. */
  lemma {:induction false} FirstWord(s: string)
    ensures Words(s)[0] <= s
    ensures |Words(s)[0]| < |s| ==> s[|Words(s)[0]|] == ' '
    ensures ' ' !in s ==> Words(s)[0] == s
  {
    if s != [] {
      FirstWord(s[1..]);
      if ' ' !in s {
        WordsOfWord(s);
      }
    }
  }
}
