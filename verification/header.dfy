/**
 The page header's avatar (src/components/layout/Header.tsx): which name it shows and the
 initials drawn from it.
 */
module Header {
  import opened Wrappers
  import opened Text
  import opened Seqs

  /** `user?.displayName || user?.email`: an empty display name gives way to the email. */
  function ShownName(displayName: Option<string>, email: Option<string>): (r: Option<string>)
    ensures displayName.Some? && |displayName.value| > 0 ==> r == displayName
    ensures displayName.None? || displayName.value == "" ==> r == email
  {
    if displayName.Some? && |displayName.value| > 0 then displayName else email
  }

  /** A string interpolated into a template literal: `s[0]` is `undefined` on the empty string,
      and the template renders it as the word "undefined". */
  function FirstOrUndefined(s: string): (r: string)
    ensures |s| > 0 ==> r == [s[0]]
    ensures |s| == 0 ==> r == "undefined"
  {
    if |s| > 0 then [s[0]] else "undefined"
  }

  /** `getInitials`, as written: "U" for no name; otherwise split on single spaces and take the
      first character of the first and the last piece, upper-cased. */
  function InitialsAsWritten(name: Option<string>): (r: string)
    ensures name.None? || name.value == "" ==> r == "U"
    ensures name.Some? && ' ' !in name.value && |name.value| > 0 ==> r == [Upper(name.value[0])]
    ensures name.Some? && |Split(name.value, ' ')| > 1 ==>
              var pieces := Split(name.value, ' ');
              r == ToUpper(FirstOrUndefined(pieces[0]) + FirstOrUndefined(pieces[|pieces| - 1]))
  {
    if name.None? || |name.value| == 0 then "U"
    else
      var pieces := Split(name.value, ' ');
      if |pieces| > 1 then ToUpper(FirstOrUndefined(pieces[0]) + FirstOrUndefined(pieces[|pieces| - 1]))
      else ToUpper([name.value[0]])
  }

  /** A name ending in a space: its last piece is empty, so the initials spell out "UNDEFINED". */
  lemma {:induction false} TrailingSpaceSpellsUndefined(word: string)
    requires |word| > 0 && ' ' !in word
    ensures InitialsAsWritten(Some(word + " ")) == [Upper(word[0])] + "UNDEFINED"
  {
    SplitAfterPiece(word, ' ', "");
    assert word + [' '] + "" == word + " ";
    var pieces := Split(word + " ", ' ');
    assert pieces == [word, ""];
    var raw := FirstOrUndefined(pieces[0]) + FirstOrUndefined(pieces[1]);
    assert raw == [word[0]] + "undefined";
    assert ToUpper(raw) == [Upper(word[0])] + "UNDEFINED";
  }

  /** "Ada " is drawn as "AUNDEFINED". */
  lemma TrailingSpaceExample()
    ensures InitialsAsWritten(Some("Ada ")) == "AUNDEFINED"
  {
    var word := "Ada";
    assert ' ' !in word by {
      assert word[0] == 'A' && word[1] == 'd' && word[2] == 'a';
    }
    TrailingSpaceSpellsUndefined(word);
    assert word + " " == "Ada ";
    assert Upper(word[0]) == 'A';
    assert [Upper(word[0])] + "UNDEFINED" == "AUNDEFINED";
  }

  predicate NonEmpty(s: string) {
    |s| > 0
  }

  /** The words of a name: its space-separated pieces without the empty ones. */
  function Words(name: string): (r: seq<string>)
    ensures forall i :: 0 <= i < |r| ==> |r[i]| > 0
  {
    Filter(NonEmpty, Split(name, ' '))
  }

  /** The initials with empty pieces skipped: "U" when the name has no word, else the first
      character of the first and, when there are two or more, of the last word, upper-cased. */
  function Initials(name: Option<string>): (r: string)
    ensures 1 <= |r| <= 2
    ensures name.None? || name.value == "" ==> r == "U"
    ensures name.Some? ==> var w := Words(name.value);
      && (|w| == 0 ==> r == "U")
      && (|w| == 1 ==> r == [Upper(w[0][0])])
      && (|w| >= 2 ==> r == [Upper(w[0][0]), Upper(w[|w| - 1][0])])
  {
    if name.None? then "U"
    else
      var words := Words(name.value);
      if |words| == 0 then "U"
      else if |words| > 1 then ToUpper([words[0][0], words[|words| - 1][0]])
      else ToUpper([words[0][0]])
  }

  // ---------------------------------------------------------------------------
  // The initials by position in the name

  /** Position `k` starts a word: a non-space character at the start or after a space. */
  predicate WordStart(s: string, k: int) {
    0 <= k < |s| && s[k] != ' ' && (k == 0 || s[k - 1] == ' ')
  }

  /** Position `j` holds the first non-space character. */
  predicate FirstLetterAt(s: string, j: int) {
    0 <= j < |s| && s[j] != ' ' && forall i :: 0 <= i < j ==> s[i] == ' '
  }

  /** Position `k` starts the last word. */
  predicate LastWordAt(s: string, k: int) {
    WordStart(s, k) && forall m :: k < m < |s| ==> !WordStart(s, m)
  }

  /** Some word starts after position 0. */
  predicate WordAfterFirst(s: string) {
    exists p :: 1 <= p < |s| && WordStart(s, p)
  }

  /** The initials read off the name by position: "U" for a name of spaces only; otherwise the
      first non-space character and, when it does not start the last word too, the first
      character of the last word, upper-cased. */
  lemma InitialsComeFromTheName(name: string)
    ensures (forall i :: 0 <= i < |name| ==> name[i] == ' ') ==> Initials(Some(name)) == "U"
    ensures forall j, k :: FirstLetterAt(name, j) && LastWordAt(name, k) ==>
              Initials(Some(name)) == if j == k then [Upper(name[j])] else [Upper(name[j]), Upper(name[k])]
    ensures (exists i :: 0 <= i < |name| && name[i] != ' ') ==>
              exists j, k :: FirstLetterAt(name, j) && LastWordAt(name, k)
  {
    NoWords(name);
    forall j, k | FirstLetterAt(name, j) && LastWordAt(name, k)
      ensures Initials(Some(name)) == if j == k then [Upper(name[j])] else [Upper(name[j]), Upper(name[k])]
    {
      FirstWord(name, j);
      LastWord(name, k);
      assert j <= k;
      if j != k {
        assert name[j] != ' ';
      }
    }
    if exists i :: 0 <= i < |name| && name[i] != ' ' {
      var i :| 0 <= i < |name| && name[i] != ' ';
      var j := FirstLetterExists(name, i);
      var k := LastWordExists(name, i);
      assert FirstLetterAt(name, j) && LastWordAt(name, k);
    }
  }

  /** A leading space adds only an empty piece, which is no word. */
  lemma WordsSkipSpace(s: string)
    requires |s| > 0 && s[0] == ' '
    ensures Words(s) == Words(s[1..])
  {
    assert Split(s, ' ') == [""] + Split(s[1..], ' ');
    FilterAppend(NonEmpty, [""], Split(s[1..], ' '));
    assert Filter(NonEmpty, [""]) == [];
  }

  /** A leading letter joins the first piece of the rest, which makes that piece a word. */
  lemma WordsOfLetter(s: string)
    requires |s| > 0 && s[0] != ' '
    ensures var rest := Split(s[1..], ' ');
      && Words(s) == [[s[0]] + rest[0]] + Filter(NonEmpty, rest[1..])
      && Words(s[1..]) == Filter(NonEmpty, [rest[0]]) + Filter(NonEmpty, rest[1..])
  {
    var rest := Split(s[1..], ' ');
    assert Split(s, ' ') == [[s[0]] + rest[0]] + rest[1..];
    FilterAppend(NonEmpty, [[s[0]] + rest[0]], rest[1..]);
    assert Filter(NonEmpty, [[s[0]] + rest[0]]) == [[s[0]] + rest[0]];
    assert rest == [rest[0]] + rest[1..];
    FilterAppend(NonEmpty, [rest[0]], rest[1..]);
  }

  /** A name of spaces only has no word. */
  lemma {:induction false} NoWords(s: string)
    ensures (forall i :: 0 <= i < |s| ==> s[i] == ' ') ==> Words(s) == []
    decreases |s|
  {
    if |s| == 0 {
      assert Split(s, ' ') == [""];
      assert Filter(NonEmpty, [""]) == [];
    } else if s[0] == ' ' {
      WordsSkipSpace(s);
      NoWords(s[1..]);
      assert forall i :: 0 <= i < |s| - 1 ==> s[1..][i] == s[i + 1];
    }
  }

  /** The first word begins at the first non-space character. */
  lemma {:induction false} FirstWord(s: string, j: int)
    requires FirstLetterAt(s, j)
    ensures |Words(s)| > 0 && Words(s)[0][0] == s[j]
    decreases |s|
  {
    if s[0] == ' ' {
      WordsSkipSpace(s);
      var t := s[1..];
      assert FirstLetterAt(t, j - 1) by {
        forall i | 0 <= i < j - 1 ensures t[i] == ' ' {
          assert t[i] == s[i + 1];
        }
      }
      FirstWord(t, j - 1);
    } else {
      assert j == 0;
      WordsOfLetter(s);
    }
  }

  /** Past the first piece there is a word exactly when a word starts after position 0. */
  lemma {:induction false} LaterWords(t: string)
    ensures Filter(NonEmpty, Split(t, ' ')[1..]) != [] <==> WordAfterFirst(t)
    decreases |t|
  {
    if |t| == 0 {
      assert Split(t, ' ') == [""];
    } else if t[0] == ' ' {
      var u := t[1..];
      assert Split(t, ' ') == [""] + Split(u, ' ');
      assert Split(t, ' ')[1..] == Split(u, ' ');
      NoWords(u);
      if Words(u) != [] {
        var i :| 0 <= i < |u| && u[i] != ' ';
        var j := FirstLetterExists(u, i);
        assert WordStart(t, j + 1);
      }
      if WordAfterFirst(t) {
        var p :| 1 <= p < |t| && WordStart(t, p);
        var j := FirstLetterExists(u, p - 1);
        FirstWord(u, j);
      }
    } else {
      var u := t[1..];
      LaterWords(u);
      var rest := Split(u, ' ');
      assert Split(t, ' ') == [[t[0]] + rest[0]] + rest[1..];
      assert Split(t, ' ')[1..] == rest[1..];
      if WordAfterFirst(t) {
        var p :| 1 <= p < |t| && WordStart(t, p);
        assert WordStart(u, p - 1);
      }
      if WordAfterFirst(u) {
        var p :| 1 <= p < |u| && WordStart(u, p);
        assert WordStart(t, p + 1);
      }
    }
  }

  /** The last word begins where the last word starts; it is the only word exactly when
      nothing but spaces comes before it. */
  lemma {:induction false} LastWord(s: string, k: int)
    requires LastWordAt(s, k)
    ensures |Words(s)| > 0 && Words(s)[|Words(s)| - 1][0] == s[k]
    ensures |Words(s)| == 1 <==> forall i :: 0 <= i < k ==> s[i] == ' '
    decreases |s|, 1
  {
    var t := s[1..];
    if s[0] == ' ' {
      WordsSkipSpace(s);
      LastWordAfterSpace(s, k);
      LastWord(t, k - 1);
    } else if WordAfterFirst(t) {
      LastOfSeveralWords(s, k);
    } else {
      var rest := Split(t, ' ');
      WordsOfLetter(s);
      LaterWords(t);
      OnlyFirstWord(s, k);
      assert Words(s) == [[s[0]] + rest[0]];
    }
  }

  /** `LastWord` for a name that opens with a letter and has a later word. */
  lemma {:induction false} LastOfSeveralWords(s: string, k: int)
    requires LastWordAt(s, k) && s[0] != ' ' && WordAfterFirst(s[1..])
    ensures |Words(s)| > 0 && Words(s)[|Words(s)| - 1][0] == s[k]
    ensures |Words(s)| == 1 <==> forall i :: 0 <= i < k ==> s[i] == ' '
    decreases |s|, 0
  {
    LastWordAfterLetter(s, k);
    LastWord(s[1..], k - 1);
    LetterWordsShareLast(s);
  }

  /** A name that opens with a letter and has a later word has two words or more, and ends in
      the same word as the name without its first character. */
  lemma LetterWordsShareLast(s: string)
    requires |s| > 0 && s[0] != ' ' && WordAfterFirst(s[1..])
    ensures |Words(s)| >= 2 && |Words(s[1..])| > 0
    ensures Words(s)[|Words(s)| - 1] == Words(s[1..])[|Words(s[1..])| - 1]
  {
    var rest := Split(s[1..], ' ');
    WordsOfLetter(s);
    LaterWords(s[1..]);
    SameLastWord(Words(s), Words(s[1..]), [s[0]] + rest[0], Filter(NonEmpty, [rest[0]]),
                 Filter(NonEmpty, rest[1..]));
  }

  /** Two word lists with the same non-empty tail end in the same word; one that adds a word
      in front of that tail has at least two. */
  lemma SameLastWord(ws: seq<string>, wt: seq<string>, x: string, w: seq<string>, later: seq<string>)
    requires ws == [x] + later && wt == w + later && |later| > 0
    ensures |ws| >= 2 && |wt| > 0 && ws[|ws| - 1] == wt[|wt| - 1]
  {
  }

  /** Behind a leading space the last word starts one position earlier, and the text before
      it is spaces in both or in neither. */
  lemma LastWordAfterSpace(s: string, k: int)
    requires LastWordAt(s, k) && s[0] == ' '
    ensures k >= 1 && LastWordAt(s[1..], k - 1)
    ensures (forall i :: 0 <= i < k ==> s[i] == ' ') <==> (forall i :: 0 <= i < k - 1 ==> s[1..][i] == ' ')
  {
    var t := s[1..];
    forall m | k - 1 < m < |t| ensures !WordStart(t, m) {
      assert !WordStart(s, m + 1);
    }
    assert forall i :: 0 <= i < k - 1 ==> t[i] == s[i + 1];
  }

  /** Behind a leading letter, when a later word starts in the rest, the last word is not the
      first one and starts one position earlier in the rest. */
  lemma LastWordAfterLetter(s: string, k: int)
    requires LastWordAt(s, k) && s[0] != ' ' && WordAfterFirst(s[1..])
    ensures k >= 2 && LastWordAt(s[1..], k - 1) && s[1..][k - 1] == s[k]
    ensures !(forall i :: 0 <= i < k ==> s[i] == ' ')
  {
    var t := s[1..];
    var p :| 1 <= p < |t| && WordStart(t, p);
    assert WordStart(s, p + 1);
    forall m | k - 1 < m < |t| ensures !WordStart(t, m) {
      assert !WordStart(s, m + 1);
    }
  }

  /** Behind a leading letter, when no later word starts in the rest, the first word is the last. */
  lemma OnlyFirstWord(s: string, k: int)
    requires LastWordAt(s, k) && s[0] != ' ' && !WordAfterFirst(s[1..])
    ensures k == 0
  {
    var t := s[1..];
    assert forall m :: 2 <= m < |s| && WordStart(s, m) ==> WordStart(t, m - 1);
  }

  /** A name with a non-space character has a first one. */
  lemma {:induction false} FirstLetterExists(s: string, i: int) returns (j: int)
    requires 0 <= i < |s| && s[i] != ' '
    ensures FirstLetterAt(s, j) && j <= i
    decreases |s|
  {
    if s[0] != ' ' {
      j := 0;
    } else {
      var j' := FirstLetterExists(s[1..], i - 1);
      j := j' + 1;
      forall m | 0 <= m < j ensures s[m] == ' ' {
        if m > 0 {
          assert s[m] == s[1..][m - 1];
        }
      }
    }
  }

  /** The last non-space character before position `n`. */
  lemma {:induction false} LastLetterBefore(s: string, n: int, i: int) returns (e: int)
    requires 0 <= i < n <= |s| && s[i] != ' '
    ensures i <= e < n && s[e] != ' ' && forall m :: e < m < n ==> s[m] == ' '
    decreases n
  {
    if s[n - 1] != ' ' {
      e := n - 1;
    } else {
      e := LastLetterBefore(s, n - 1, i);
    }
  }

  /** The start of the run of non-spaces holding position `e`. */
  lemma {:induction false} RunStart(s: string, e: int) returns (k: int)
    requires 0 <= e < |s| && s[e] != ' '
    ensures WordStart(s, k) && k <= e && forall m :: k <= m <= e ==> s[m] != ' '
    decreases e
  {
    if e == 0 || s[e - 1] == ' ' {
      k := e;
    } else {
      k := RunStart(s, e - 1);
    }
  }

  /** A name with a non-space character has a last word. */
  lemma LastWordExists(s: string, i: int) returns (k: int)
    requires 0 <= i < |s| && s[i] != ' '
    ensures LastWordAt(s, k)
  {
    var e := LastLetterBefore(s, |s|, i);
    k := RunStart(s, e);
    forall m | k < m < |s| ensures !WordStart(s, m) {
      if m <= e {
        assert s[m - 1] != ' ';
      } else {
        assert s[m] == ' ';
      }
    }
  }

  /** No piece between single spaces is empty: no leading, trailing or doubled space. */
  predicate WellSpaced(name: string) {
    && |name| > 0 && name[0] != ' ' && name[|name| - 1] != ' '
    && forall i :: 0 <= i < |name| - 1 && name[i] == ' ' ==> name[i + 1] != ' '
  }

  /** In a string without doubled spaces that does not end in one, every piece after the first
      is non-empty, and the first is too when the string does not start with a space. */
  lemma {:induction false} PiecesNonEmpty(s: string)
    requires |s| > 0 ==> s[|s| - 1] != ' '
    requires forall i :: 0 <= i < |s| - 1 && s[i] == ' ' ==> s[i + 1] != ' '
    ensures forall k :: 1 <= k < |Split(s, ' ')| ==> |Split(s, ' ')[k]| > 0
    ensures |s| > 0 && s[0] != ' ' ==> |Split(s, ' ')[0]| > 0
    decreases |s|
  {
    if |s| > 0 {
      var t := s[1..];
      assert forall i :: 0 <= i < |t| - 1 && t[i] == ' ' ==> t[i + 1] != ' ' by {
        forall i | 0 <= i < |t| - 1 && t[i] == ' ' ensures t[i + 1] != ' ' {
          assert t[i] == s[i + 1] && t[i + 1] == s[i + 2];
        }
      }
      PiecesNonEmpty(t);
      var rest := Split(t, ' ');
      if s[0] == ' ' {
        assert |t| > 0 && t[0] != ' ';
        assert Split(s, ' ') == [""] + rest;
      } else {
        assert Split(s, ' ') == [[s[0]] + rest[0]] + rest[1..];
      }
    }
  }

  /** On a well-spaced name the two versions agree: the difference is only in empty pieces. */
  lemma InitialsAgreeWhenWellSpaced(name: string)
    requires WellSpaced(name)
    ensures Initials(Some(name)) == InitialsAsWritten(Some(name))
  {
    WordsOfWellSpaced(name);
    var pieces := Split(name, ' ');
    if |pieces| == 1 {
      OneWordAgrees(name);
    } else {
      ManyWordsAgree(name);
    }
  }

  lemma OneWordAgrees(name: string)
    requires |name| > 0 && Words(name) == Split(name, ' ') && |Split(name, ' ')| == 1
    ensures Initials(Some(name)) == InitialsAsWritten(Some(name))
  {
    assert Split(name, ' ') == [name];
  }

  lemma ManyWordsAgree(name: string)
    requires |name| > 0 && Words(name) == Split(name, ' ') && |Split(name, ' ')| > 1
    ensures Initials(Some(name)) == InitialsAsWritten(Some(name))
  {
    var pieces := Split(name, ' ');
    var first, last := pieces[0], pieces[|pieces| - 1];
    assert |first| > 0 && |last| > 0;
    var initials := [first[0], last[0]];
    assert FirstOrUndefined(first) + FirstOrUndefined(last) == initials;
    calc {
      InitialsAsWritten(Some(name));
      ToUpper(FirstOrUndefined(first) + FirstOrUndefined(last));
      ToUpper(initials);
      Initials(Some(name));
    }
  }

  /** A well-spaced name's words are exactly its pieces. */
  lemma WordsOfWellSpaced(name: string)
    requires WellSpaced(name)
    ensures Words(name) == Split(name, ' ')
    ensures forall k :: 0 <= k < |Split(name, ' ')| ==> |Split(name, ' ')[k]| > 0
  {
    PiecesNonEmpty(name);
    var pieces := Split(name, ' ');
    assert forall k :: 0 <= k < |pieces| ==> NonEmpty(pieces[k]);
  }
}
