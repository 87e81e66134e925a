/** The JavaScript string operations the pages use to build labels:
    `s.replace('_', ' ')` (first occurrence only), `split`, `join`,
    `charAt(0).toUpperCase() + slice(1)` and `toUpperCase()`.
    Case conversion is modelled on the ASCII letters only. */
module Text {

  /** Index of the first occurrence of `c` in `s`, or |s| when there is none. */
  function IndexOf(s: string, c: char): (i: nat)
    ensures i <= |s|
    ensures i < |s| ==> s[i] == c
    ensures forall k :: 0 <= k < i ==> s[k] != c
    ensures i == |s| <==> c !in s
  {
    if |s| == 0 then 0
    else if s[0] == c then 0
    else 1 + IndexOf(s[1..], c)
  }

  /** `s.replace(from, to)` with a one-character string pattern: only the
      FIRST occurrence is replaced. */
  function ReplaceFirst(s: string, from: char, to: char): (r: string)
    ensures |r| == |s|
    ensures from !in s ==> r == s
    ensures from in s ==>
      var i := IndexOf(s, from);
      r[i] == to && (forall k :: 0 <= k < |s| && k != i ==> r[k] == s[k])
  {
    var i := IndexOf(s, from);
    if i == |s| then s else s[..i] + [to] + s[i + 1..]
  }

  /** A second `from` in the input survives a single replace. */
  lemma {:induction false} ReplaceFirstKeepsLaterOccurrences(s: string, from: char, to: char, j: nat)
    requires from != to
    requires j < |s| && s[j] == from && j != IndexOf(s, from)
    ensures from in ReplaceFirst(s, from, to)
  {
    var r := ReplaceFirst(s, from, to);
    assert r[j] == from;
  }

  function UpperChar(c: char): char {
    if 'a' <= c <= 'z' then (c as int - 32) as char else c
  }

  /** `s.toUpperCase()` over ASCII letters. */
  function ToUpper(s: string): (r: string)
    ensures |r| == |s|
    ensures forall k :: 0 <= k < |s| ==> r[k] == UpperChar(s[k])
  {
    if |s| == 0 then "" else [UpperChar(s[0])] + ToUpper(s[1..])
  }

  /** `w.charAt(0).toUpperCase() + w.slice(1)`: `charAt(0)` of the empty
      string is the empty string, so "" is returned unchanged. */
  function UpperFirst(w: string): (r: string)
    ensures |r| == |w|
    ensures |w| > 0 ==> r[0] == UpperChar(w[0]) && r[1..] == w[1..]
  {
    if |w| == 0 then "" else [UpperChar(w[0])] + w[1..]
  }

  /** `s.split(sep)` with a one-character separator: the pieces between the
      separators, so there is always one piece more than separators, and the
      empty string splits into one empty piece. */
  function Split(s: string, sep: char): (parts: seq<string>)
    ensures |parts| >= 1
    ensures forall p :: p in parts ==> sep !in p
    decreases |s|
  {
    if |s| == 0 then [""]
    else
      var rest := Split(s[1..], sep);
      if s[0] == sep then [""] + rest
      else [[s[0]] + rest[0]] + rest[1..]
  }

  /** `parts.join(sep)`. */
  function Join(parts: seq<string>, sep: char): string
  {
    if |parts| == 0 then ""
    else if |parts| == 1 then parts[0]
    else parts[0] + [sep] + Join(parts[1..], sep)
  }

  /** Splitting and joining on the same separator gives the input back. */
  lemma {:induction false} JoinSplit(s: string, sep: char)
    ensures Join(Split(s, sep), sep) == s
    decreases |s|
  {
    if |s| > 0 {
      var rest := Split(s[1..], sep);
      JoinSplit(s[1..], sep);
      if s[0] == sep {
        assert Split(s, sep) == [""] + rest;
        assert s == [sep] + s[1..];
      } else {
        var parts := Split(s, sep);
        assert parts == [[s[0]] + rest[0]] + rest[1..];
        if |rest| == 1 {
          assert s == [s[0]] + rest[0];
        } else {
          assert parts[1..] == rest[1..];
          assert Join(rest, sep) == rest[0] + [sep] + Join(rest[1..], sep);
          assert s == [s[0]] + s[1..];
        }
      }
    }
  }

  /** `words.map(UpperFirst)`. */
  function MapUpperFirst(words: seq<string>): (r: seq<string>)
    ensures |r| == |words|
    ensures forall k :: 0 <= k < |words| ==> r[k] == UpperFirst(words[k])
  {
    if |words| == 0 then [] else [UpperFirst(words[0])] + MapUpperFirst(words[1..])
  }


  /** Reference definition of capitalising words, character by character:
      a character is upper-cased exactly when it starts the string or follows
      a space (`atWordStart` says whether the previous character was one). */
  function CapitalizeAfterSpaces(s: string, atWordStart: bool): (r: string)
    ensures |r| == |s|
  {
    if |s| == 0 then ""
    else [if atWordStart then UpperChar(s[0]) else s[0]] + CapitalizeAfterSpaces(s[1..], s[0] == ' ')
  }

  lemma {:induction false} CapitalizeAfterSpacesAt(s: string, atWordStart: bool, k: nat)
    requires k < |s|
    ensures CapitalizeAfterSpaces(s, atWordStart)[k] ==
      if (if k == 0 then atWordStart else s[k - 1] == ' ') then UpperChar(s[k]) else s[k]
  {
    if k > 0 {
      CapitalizeAfterSpacesAt(s[1..], s[0] == ' ', k - 1);
    }
  }

  /** With the first piece left as it is and the others capitalised, the
      join is the character-wise rule started in the middle of a word. */
  ghost predicate TailAgrees(s: string)
  {
    var parts := Split(s, ' ');
    Join([parts[0]] + MapUpperFirst(parts[1..]), ' ') == CapitalizeAfterSpaces(s, false)
  }

  /** With every piece capitalised, the join is the character-wise rule
      started at a word boundary. */
  ghost predicate WholeAgrees(s: string)
  {
    Join(MapUpperFirst(Split(s, ' ')), ' ') == CapitalizeAfterSpaces(s, true)
  }

  /** The step for a text opening with a space: both forms give "" + " " +
      the rest with every word capitalised. */
  lemma CapitalizeStepSpace(s: string)
    requires |s| > 0 && s[0] == ' '
    requires WholeAgrees(s[1..])
    ensures TailAgrees(s) && WholeAgrees(s)
  {
    var rest := Split(s[1..], ' ');
    var parts := Split(s, ' ');
    assert parts == [""] + rest;
    assert parts[1..] == rest;
    assert [parts[0]] + MapUpperFirst(parts[1..]) == [""] + MapUpperFirst(rest);
    assert MapUpperFirst(parts) == [""] + MapUpperFirst(rest);
    assert Join([""] + MapUpperFirst(rest), ' ') == "" + [' '] + Join(MapUpperFirst(rest), ' ');
    assert UpperChar(' ') == ' ';
  }

  /** The step for a text opening with a word character: the character joins
      the first piece, and the rest of that piece is left alone in both forms. */
  lemma CapitalizeStepWord(s: string)
    requires |s| > 0 && s[0] != ' '
    requires TailAgrees(s[1..])
    ensures TailAgrees(s) && WholeAgrees(s)
  {
    var rest := Split(s[1..], ' ');
    var parts := Split(s, ' ');
    var w := [s[0]] + rest[0];
    assert parts == [w] + rest[1..];
    assert parts[1..] == rest[1..];
    var tail := MapUpperFirst(rest[1..]);
    assert Join([rest[0]] + tail, ' ') == CapitalizeAfterSpaces(s[1..], false);
    assert UpperFirst(w) == [UpperChar(s[0])] + rest[0];
    assert MapUpperFirst(parts) == [UpperFirst(w)] + tail;
    if |tail| == 0 {
      assert Join([w] + tail, ' ') == w;
      assert Join([rest[0]] + tail, ' ') == rest[0];
      assert Join([UpperFirst(w)] + tail, ' ') == UpperFirst(w);
    } else {
      assert ([w] + tail)[1..] == tail;
      assert ([rest[0]] + tail)[1..] == tail;
      assert ([UpperFirst(w)] + tail)[1..] == tail;
    }
  }

  /** Inside the split/map/join pipeline, by induction on the text. */
  lemma {:induction false} CapitalizeTail(s: string)
    ensures TailAgrees(s)
    ensures WholeAgrees(s)
    decreases |s|
  {
    if |s| > 0 {
      CapitalizeTail(s[1..]);
      if s[0] == ' ' {
        CapitalizeStepSpace(s);
      } else {
        CapitalizeStepWord(s);
      }
    }
  }

  /** `s.split(' ').map(w => w.charAt(0).toUpperCase() + w.slice(1)).join(' ')`:
      the same text as the character-wise reference definition. */
  function CapitalizeWords(s: string): (r: string)
    ensures r == CapitalizeAfterSpaces(s, true)
    ensures |r| == |s|
  {
    CapitalizeTail(s);
    Join(MapUpperFirst(Split(s, ' ')), ' ')
  }

  /** The split/map/join pipeline upper-cases exactly the characters that start
      the string or follow a space, and leaves every other character alone. */
  lemma CapitalizeWordsAt(s: string, k: nat)
    requires k < |s|
    ensures CapitalizeWords(s)[k] ==
      if k == 0 || s[k - 1] == ' ' then UpperChar(s[k]) else s[k]
  {
    CapitalizeAfterSpacesAt(s, true, k);
  }

  /** `s.replace('_', ' ').toUpperCase()`, the text of the status and role
      badges: the first underscore becomes a space, letters are upper-cased,
      and any later underscore stays. */
  function BadgeLabel(s: string): (r: string)
    ensures |r| == |s|
    ensures forall k :: 0 <= k < |s| ==>
      r[k] == if k == IndexOf(s, '_') then ' ' else UpperChar(s[k])
  {
    ToUpper(ReplaceFirst(s, '_', ' '))
  }

  /** Only the first underscore becomes a space: "a_b_c" is badged "A B_C". */
  lemma BadgeLabelReplacesFirstOnly()
    ensures BadgeLabel("a_b_c") == "A B_C"
  {
    var s := "a_b_c";
    assert s[1..] == "_b_c";
    assert IndexOf(s, '_') == 1;
    assert ReplaceFirst(s, '_', ' ') == "a b_c";
    assert ToUpper("a b_c") == "A B_C";
  }
}
