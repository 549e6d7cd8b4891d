/** The fixture reader's string helpers (tests/testHandler.cpp): deleting
    the dashes of a banner, spotting data lines by their digits, collapsing
    a bordered row to its words, and splitting at a delimiter the way a
    `std::getline` loop does. Each is a loop over the characters, proved
    against a definition of what it computes. */
module ReaderText {
  import opened Text

  // ---------------------------------------------------------------------
  // Deleting a character.

  /** `s` with every `x` deleted and every other character kept, in order. */
  function Remove(s: string, x: char): string
  {
    if s == [] then [] else Remove(s[..|s| - 1], x) + (if s[|s| - 1] == x then [] else [s[|s| - 1]])
  }

  /** Deleting distributes over concatenation. */
  lemma {:induction false} RemoveAppend(a: string, b: string, x: char)
    ensures Remove(a + b, x) == Remove(a, x) + Remove(b, x)
  {
    if b != [] {
      assert (a + b)[..|a + b| - 1] == a + b[..|b| - 1];
      RemoveAppend(a, b[..|b| - 1], x);
    } else {
      assert a + b == a;
    }
  }

  /** What is left has no `x` and nothing that was not there; a string
      without `x` is left as it is. */
  lemma {:induction false} RemoveChars(s: string, x: char)
    ensures x !in Remove(s, x)
    ensures forall c :: c in Remove(s, x) ==> c in s
    ensures x !in s ==> Remove(s, x) == s
  {
    if s != [] {
      RemoveChars(s[..|s| - 1], x);
      assert s == s[..|s| - 1] + [s[|s| - 1]];
    }
  }

  /** trimNonDataString: drops every '-' of a line. */
  method TrimNonDataString(input: string) returns (result: string)
    ensures result == Remove(input, '-')
  {
    result := "";
    for i := 0 to |input|
      invariant result == Remove(input[..i], '-')
    {
      assert input[..i + 1][..i] == input[..i];
      if input[i] != '-' {
        result := result + [input[i]];
      }
    }
    assert input[..|input|] == input;
  }

  // ---------------------------------------------------------------------
  // Digits.

  /** containsNoDigits: true exactly when no character is a digit. */
  method ContainsNoDigits(str: string) returns (noDigits: bool)
    ensures noDigits <==> !HasDigit(str)
  {
    for i := 0 to |str|
      invariant forall k :: 0 <= k < i ==> !IsDigit(str[k])
    {
      if IsDigit(str[i]) {
        return false;
      }
    }
    return true;
  }

  // ---------------------------------------------------------------------
  // Pieces between separators.

  /** The pieces of `s` between the characters `isSep` picks out, empty
      pieces included: always one more piece than separators. */
  function Pieces(s: string, isSep: char -> bool): (ps: seq<string>)
    ensures |ps| >= 1
  {
    if s == [] then [""]
    else
      var ps := Pieces(s[..|s| - 1], isSep);
      var c := s[|s| - 1];
      if isSep(c) then ps + [""] else ps[..|ps| - 1] + [ps[|ps| - 1] + [c]]
  }

  /** The separator test "is `d`". */
  function IsChar(d: char): char -> bool
  {
    c => c == d
  }

  /** A string with no separator is one piece. */
  lemma {:induction false} PiecesOfWord(w: string, isSep: char -> bool)
    requires forall k :: 0 <= k < |w| ==> !isSep(w[k])
    ensures Pieces(w, isSep) == [w]
  {
    if w != [] {
      PiecesOfWord(w[..|w| - 1], isSep);
      assert w == w[..|w| - 1] + [w[|w| - 1]];
    }
  }

  /** One more character: a separator starts a new empty piece, any other
      character extends the last piece. */
  lemma PiecesStep(t: string, c: char, isSep: char -> bool)
    ensures var ps := Pieces(t, isSep);
      Pieces(t + [c], isSep) == if isSep(c) then ps + [""] else ps[..|ps| - 1] + [ps[|ps| - 1] + [c]]
  {
    assert (t + [c])[..|t|] == t;
  }

  /** A separator cuts a string into the pieces of both sides. */
  lemma {:induction false} PiecesSplit(a: string, c: char, b: string, isSep: char -> bool)
    requires isSep(c)
    ensures Pieces(a + [c] + b, isSep) == Pieces(a, isSep) + Pieces(b, isSep)
  {
    if b == [] {
      PiecesStep(a, c, isSep);
      assert a + [c] + b == a + [c];
    } else {
      var b' := b[..|b| - 1];
      var e := b[|b| - 1];
      PiecesSplit(a, c, b', isSep);
      assert a + [c] + b == (a + [c] + b') + [e];
      assert b == b' + [e];
      PiecesStep(a + [c] + b', e, isSep);
      PiecesStep(b', e, isSep);
      ExtendPieces(Pieces(a, isSep), Pieces(b', isSep), e);
    }
  }

  /** Appending a piece or extending the last piece of `left + right` acts
      on `right` alone. */
  lemma ExtendPieces(left: seq<string>, right: seq<string>, e: char)
    requires |right| >= 1
    ensures (left + right) + [""] == left + (right + [""])
    ensures var ps := left + right;
      ps[..|ps| - 1] + [ps[|ps| - 1] + [e]] == left + (right[..|right| - 1] + [right[|right| - 1] + [e]])
  {
    var ps := left + right;
    assert ps[..|ps| - 1] == left + right[..|right| - 1];
  }

  /** Every piece is made of characters of `s` that are not separators. */
  lemma {:induction false} PiecesChars(s: string, isSep: char -> bool)
    ensures forall j, k :: 0 <= j < |Pieces(s, isSep)| && 0 <= k < |Pieces(s, isSep)[j]| ==>
      Pieces(s, isSep)[j][k] in s && !isSep(Pieces(s, isSep)[j][k])
  {
    if s != [] {
      var init := s[..|s| - 1];
      PiecesChars(init, isSep);
      assert forall ch :: ch in init ==> ch in s;
    }
  }

  /** Joining the pieces at `d` gives the string back. */
  lemma {:induction false} JoinPieces(s: string, d: char)
    ensures Join([d], Pieces(s, IsChar(d))) == s
  {
    if s != [] {
      var init := s[..|s| - 1];
      var c := s[|s| - 1];
      var ps := Pieces(init, IsChar(d));
      var last := ps[|ps| - 1];
      JoinPieces(init, d);
      assert s == init + [c];
      PiecesStep(init, c, IsChar(d));
      if c == d {
        JoinSnoc([d], ps, "");
      } else if |ps| == 1 {
        assert ps[..0] + [last + [c]] == [last + [c]];
      } else {
        JoinSnoc([d], ps[..|ps| - 1], last);
        JoinSnoc([d], ps[..|ps| - 1], last + [c]);
        assert ps[..|ps| - 1] + [last] == ps;
      }
    }
  }

  /** Joining one more element after a non-empty list. */
  lemma {:induction false} JoinSnoc(sep: string, xs: seq<string>, x: string)
    requires xs != []
    ensures Join(sep, xs + [x]) == Join(sep, xs) + sep + x
  {
    if |xs| == 1 {
      assert (xs + [x])[1..] == [x];
    } else {
      assert (xs + [x])[1..] == xs[1..] + [x];
      JoinSnoc(sep, xs[1..], x);
    }
  }

  // ---------------------------------------------------------------------
  // splitString.

  /** The tokens a `std::getline(iss, token, delimiter)` loop extracts: the
      pieces between delimiters, except that an empty last piece is not
      extracted (getline fails at the end of the stream when it has read
      nothing). */
  function Split(s: string, d: char): seq<string>
  {
    var ps := Pieces(s, IsChar(d));
    if ps[|ps| - 1] == "" then ps[..|ps| - 1] else ps
  }

  /** splitString. */
  method SplitString(str: string, delimiter: char) returns (tokens: seq<string>)
    ensures tokens == Split(str, delimiter)
  {
    tokens := [];
    var token := "";
    for i := 0 to |str|
      invariant tokens + [token] == Pieces(str[..i], IsChar(delimiter))
    {
      assert str[..i + 1][..i] == str[..i];
      if str[i] == delimiter {
        tokens := tokens + [token];
        token := "";
      } else {
        token := token + [str[i]];
      }
    }
    assert str[..|str|] == str;
    if token != "" {
      tokens := tokens + [token];
    }
  }

  /** Joining the tokens at the delimiter gives the string back, less the
      delimiter it ends with, if any. */
  lemma JoinSplit(s: string, d: char)
    ensures Join([d], Split(s, d)) == if s != [] && s[|s| - 1] == d then s[..|s| - 1] else s
  {
    if s != [] {
      var init := s[..|s| - 1];
      var c := s[|s| - 1];
      assert s == init + [c];
      PiecesStep(init, c, IsChar(d));
      if c == d {
        JoinPieces(init, d);
      } else {
        JoinPieces(s, d);
      }
    }
  }

  /** A word: non-empty, without C whitespace and without '|'. */
  predicate IsWord(w: string)
  {
    w != [] && forall k :: 0 <= k < |w| ==> !IsCSpace(w[k]) && w[k] != '|'
  }

  predicate AllWords(ws: seq<string>)
  {
    forall j :: 0 <= j < |ws| ==> IsWord(ws[j])
  }

  /** Splitting words joined by single spaces gives the words back. */
  lemma SplitJoin(ws: seq<string>)
    requires AllWords(ws)
    ensures Split(Join(" ", ws), ' ') == ws
  {
    if ws != [] {
      PiecesJoin(ws);
    }
  }

  lemma {:induction false} PiecesJoin(ws: seq<string>)
    requires AllWords(ws) && ws != []
    ensures Pieces(Join(" ", ws), IsChar(' ')) == ws
  {
    var w := ws[0];
    assert forall k :: 0 <= k < |w| ==> !IsChar(' ')(w[k]);
    PiecesOfWord(w, IsChar(' '));
    if |ws| > 1 {
      PiecesJoin(ws[1..]);
      assert Join(" ", ws) == w + [' '] + Join(" ", ws[1..]);
      PiecesSplit(w, ' ', Join(" ", ws[1..]), IsChar(' '));
      assert [w] + ws[1..] == ws;
    }
  }

  // ---------------------------------------------------------------------
  // trimDataString.

  /** The non-empty elements, in order. */
  function NonEmpty(ps: seq<string>): seq<string>
  {
    if ps == [] then [] else NonEmpty(ps[..|ps| - 1]) + (if ps[|ps| - 1] == "" then [] else [ps[|ps| - 1]])
  }

  lemma {:induction false} NonEmptyAppend(a: seq<string>, b: seq<string>)
    ensures NonEmpty(a + b) == NonEmpty(a) + NonEmpty(b)
  {
    if b == [] {
      assert a + b == a;
    } else {
      assert (a + b)[..|a + b| - 1] == a + b[..|b| - 1];
      NonEmptyAppend(a, b[..|b| - 1]);
    }
  }

  lemma {:induction false} NonEmptyElements(ps: seq<string>)
    ensures forall j :: 0 <= j < |NonEmpty(ps)| ==> NonEmpty(ps)[j] != "" && NonEmpty(ps)[j] in ps
  {
    if ps != [] {
      NonEmptyElements(ps[..|ps| - 1]);
      assert forall p :: p in ps[..|ps| - 1] ==> p in ps;
    }
  }

  /** The words of a data line: '|' is ignored, and C whitespace separates
      the runs of the remaining characters. */
  function Words(s: string): seq<string>
  {
    NonEmpty(Pieces(Remove(s, '|'), IsCSpace))
  }

  /** What trimDataString returns: the words, joined by single spaces. */
  function TrimData(s: string): string
  {
    Join(" ", Words(s))
  }

  /** Every word is a word: non-empty, with no whitespace and no '|'. */
  lemma WordsAreWords(s: string)
    ensures AllWords(Words(s))
  {
    var t := Remove(s, '|');
    RemoveChars(s, '|');
    PiecesChars(t, IsCSpace);
    NonEmptyElements(Pieces(t, IsCSpace));
  }

  /** A whitespace character cuts a line into the words of both sides. */
  lemma WordsSplit(a: string, c: char, b: string)
    requires IsCSpace(c)
    ensures Words(a + [c] + b) == Words(a) + Words(b)
  {
    RemoveAppend(a + [c], b, '|');
    RemoveAppend(a, [c], '|');
    assert Remove([c], '|') == [c] by { assert [c][..0] == []; }
    PiecesSplit(Remove(a, '|'), c, Remove(b, '|'), IsCSpace);
    NonEmptyAppend(Pieces(Remove(a, '|'), IsCSpace), Pieces(Remove(b, '|'), IsCSpace));
  }

  /** A leading '|' is ignored. */
  lemma WordsPipe(b: string)
    ensures Words("|" + b) == Words(b)
  {
    RemoveAppend("|", b, '|');
    assert Remove("|", '|') == [] by { assert "|"[..0] == []; }
    assert Remove("|" + b, '|') == Remove(b, '|');
  }

  /** A word is its own single word. */
  lemma WordsOfWord(w: string)
    requires IsWord(w)
    ensures Words(w) == [w]
  {
    RemoveChars(w, '|');
    PiecesOfWord(w, IsCSpace);
    assert NonEmpty([w]) == [w] by { assert [w][..0] == []; }
  }

  /** The empty line has no words. */
  lemma WordsEmpty()
    ensures Words("") == []
  {
    assert NonEmpty([""]) == [] by { assert [""][..0] == []; }
  }

  /** The loop state of trimDataString after the prefix `p`: the words so
      far, joined; whether a word was seen; whether whitespace followed the
      last word character. */
  predicate TrimState(p: string, result: string, spaceFound: bool, charFirstSeen: bool)
  {
    var ps := Pieces(Remove(p, '|'), IsCSpace);
    result == Join(" ", NonEmpty(ps))
    && (charFirstSeen <==> NonEmpty(ps) != [])
    && (spaceFound <==> ps[|ps| - 1] == "" && |ps| > 1)
  }

  /** trimDataString: the words of the line, joined by single spaces. */
  method TrimDataString(input: string) returns (result: string)
    ensures result == TrimData(input)
  {
    result := "";
    var spaceFound := false;
    var charFirstSeen := false;
    assert NonEmpty([""]) == [] by { assert [""][..0] == []; }
    for i := 0 to |input|
      invariant TrimState(input[..i], result, spaceFound, charFirstSeen)
    {
      var c := input[i];
      assert input[..i + 1] == input[..i] + [c];
      if c == '|' {
        TrimStepPipe(input[..i], result, spaceFound, charFirstSeen);
        continue;
      } else if IsCSpace(c) {
        TrimStepSpace(input[..i], c, result, spaceFound, charFirstSeen);
        spaceFound := true;
      } else {
        TrimStepChar(input[..i], c, result, spaceFound, charFirstSeen);
        if spaceFound && charFirstSeen {
          result := result + [' '];
        }
        result := result + [c];
        charFirstSeen := true;
        spaceFound := false;
      }
    }
    assert input[..|input|] == input;
  }

  lemma RemoveStep(p: string, c: char, x: char)
    ensures Remove(p + [c], x) == Remove(p, x) + (if c == x then [] else [c])
  {
    assert (p + [c])[..|p|] == p;
  }

  lemma TrimStepPipe(p: string, result: string, spaceFound: bool, charFirstSeen: bool)
    requires TrimState(p, result, spaceFound, charFirstSeen)
    ensures TrimState(p + ['|'], result, spaceFound, charFirstSeen)
  {
    RemoveStep(p, '|', '|');
    assert Remove(p + ['|'], '|') == Remove(p, '|');
  }

  lemma NonEmptySingle(x: string)
    ensures NonEmpty([x]) == if x == "" then [] else [x]
  {
    assert [x][..0] == [];
  }

  lemma TrimStepSpace(p: string, c: char, result: string, spaceFound: bool, charFirstSeen: bool)
    requires IsCSpace(c)
    requires TrimState(p, result, spaceFound, charFirstSeen)
    ensures TrimState(p + [c], result, true, charFirstSeen)
  {
    var t := Remove(p, '|');
    var ps := Pieces(t, IsCSpace);
    RemoveStep(p, c, '|');
    assert Remove(p + [c], '|') == t + [c];
    PiecesStep(t, c, IsCSpace);
    assert Pieces(t + [c], IsCSpace) == ps + [""];
    NonEmptyAppend(ps, [""]);
    NonEmptySingle("");
    assert NonEmpty(ps + [""]) == NonEmpty(ps);
  }

  lemma TrimStepChar(p: string, c: char, result: string, spaceFound: bool, charFirstSeen: bool)
    requires !IsCSpace(c) && c != '|'
    requires TrimState(p, result, spaceFound, charFirstSeen)
    ensures TrimState(p + [c], (if spaceFound && charFirstSeen then result + [' '] else result) + [c], false, true)
  {
    var t := Remove(p, '|');
    var ps := Pieces(t, IsCSpace);
    var init := ps[..|ps| - 1];
    var last := ps[|ps| - 1];
    RemoveStep(p, c, '|');
    PiecesStep(t, c, IsCSpace);
    assert ps == init + [last];
    NonEmptyAppend(init, [last]);
    NonEmptyAppend(init, [last + [c]]);
    NonEmptySingle(last);
    NonEmptySingle(last + [c]);
    assert NonEmpty(init) != [] ==> init != [];
    ExtendLastWord(NonEmpty(init), last, c, result, spaceFound, charFirstSeen);
  }

  /** The joined words after a word character is added to the last piece:
      it starts a new word, after a space if words came before, or it
      extends the last word. */
  lemma ExtendLastWord(words: seq<string>, last: string, c: char, result: string, spaceFound: bool, charFirstSeen: bool)
    requires result == Join(" ", words + (if last == "" then [] else [last]))
    requires charFirstSeen <==> words + (if last == "" then [] else [last]) != []
    requires spaceFound ==> last == ""
    requires last == "" && words != [] ==> spaceFound
    ensures (if spaceFound && charFirstSeen then result + [' '] else result) + [c]
      == Join(" ", words + [last + [c]])
  {
    if words != [] {
      JoinSnoc(" ", words, last + [c]);
      if last != "" {
        JoinSnoc(" ", words, last);
      } else {
        assert words + [] == words;
      }
    }
  }

  /** trimDataString's result has no '|', begins and ends with a word
      character, and splitting it at spaces gives back its words, none of
      them empty. */
  lemma TrimDataShape(s: string)
    ensures '|' !in TrimData(s)
    ensures TrimData(s) != [] ==> !IsCSpace(TrimData(s)[0]) && !IsCSpace(TrimData(s)[|TrimData(s)| - 1])
    ensures Split(TrimData(s), ' ') == Words(s)
    ensures forall j :: 0 <= j < |Split(TrimData(s), ' ')| ==> Split(TrimData(s), ' ')[j] != ""
  {
    WordsAreWords(s);
    SplitJoin(Words(s));
    JoinOfWords(Words(s));
  }

  /** Words joined by single spaces contain no '|' and neither begin nor end
      with whitespace. */
  lemma {:induction false} JoinOfWords(ws: seq<string>)
    requires AllWords(ws)
    ensures '|' !in Join(" ", ws)
    ensures Join(" ", ws) != [] ==> !IsCSpace(Join(" ", ws)[0]) && !IsCSpace(Join(" ", ws)[|Join(" ", ws)| - 1])
  {
    if |ws| == 1 {
      assert '|' !in ws[0] by {
        forall k | 0 <= k < |ws[0]| ensures ws[0][k] != '|' { assert IsWord(ws[0]); }
      }
    } else if |ws| > 1 {
      JoinOfWords(ws[1..]);
      var w := ws[0];
      var rest := Join(" ", ws[1..]);
      assert Join(" ", ws) == w + " " + rest;
      assert IsWord(w);
      assert '|' !in w by {
        forall k | 0 <= k < |w| ensures w[k] != '|' { }
      }
    }
  }
}
