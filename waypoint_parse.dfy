/** The handler's reading of a flight plan's `waypoints` cell, which the CSV
    file holds as the text of a Python list such as `['KJFK', 'MERIT']`. In
    this order: square brackets are stripped from both ends, every single
    and every double quote is deleted, the rest is split at each comma, and
    white space is trimmed from both ends of each piece. */
module WaypointParsing {

  /** Python's `str.isspace` for one character: the characters `str.strip()`
      removes when called without an argument. */
  predicate IsSpace(c: char) {
    var n := c as int;
    || 9 <= n <= 13 || 28 <= n <= 32
    || n == 0x85 || n == 0xA0 || n == 0x1680 || 0x2000 <= n <= 0x200A
    || n == 0x2028 || n == 0x2029 || n == 0x202F || n == 0x205F || n == 0x3000
  }

  /** The two character sets the parse strips: `'[]'`, and white space. */
  datatype Charset = Brackets | WhiteSpace

  predicate Drops(cs: Charset, c: char) {
    match cs
    case Brackets => c == '[' || c == ']'
    case WhiteSpace => IsSpace(c)
  }

  /** Python's left strip: the longest suffix of `s` that does not start with a
      dropped character. */
  function StripLeft(s: string, cs: Charset): (r: string)
    ensures |r| <= |s| && r == s[|s| - |r|..]
    ensures forall i :: 0 <= i < |s| - |r| ==> Drops(cs, s[i])
    ensures r != [] ==> !Drops(cs, r[0])
  {
    if s != [] && Drops(cs, s[0]) then StripLeft(s[1..], cs) else s
  }

  /** Python's right strip: the longest prefix of `s` that does not end with a
      dropped character. */
  function StripRight(s: string, cs: Charset): (r: string)
    ensures |r| <= |s| && r == s[..|r|]
    ensures forall i :: |r| <= i < |s| ==> Drops(cs, s[i])
    ensures r != [] ==> !Drops(cs, r[|r| - 1])
  {
    if s != [] && Drops(cs, s[|s| - 1]) then StripRight(s[..|s| - 1], cs) else s
  }

  /** Python's strip: both ends at once. What is left is a stretch of `s`
      that neither starts nor ends with a dropped character (`StripSlice`
      adds that everything of `s` before and after it is dropped). */
  function Strip(s: string, cs: Charset): (r: string)
    ensures forall c :: c in r ==> c in s
    ensures r != [] ==> !Drops(cs, r[0]) && !Drops(cs, r[|r| - 1])
  {
    var l := StripLeft(s, cs);
    var r := StripRight(l, cs);
    assert forall c :: c in r ==> c in l;
    r
  }

  /** `r` is the stretch of `s` starting at `i`, and every character of `s`
      outside that stretch is one of `cs`. */
  predicate StrippedAt(s: string, cs: Charset, i: int, r: string) {
    && 0 <= i <= |s| - |r| && r == s[i..i + |r|]
    && (forall j :: 0 <= j < i ==> Drops(cs, s[j]))
    && (forall j :: i + |r| <= j < |s| ==> Drops(cs, s[j]))
  }

  /** `Strip` cuts one contiguous stretch out of `s`, and everything of `s`
      before and after that stretch is a dropped character. */
  lemma StripSlice(s: string, cs: Charset)
    ensures exists i :: StrippedAt(s, cs, i, Strip(s, cs))
  {
    var l := StripLeft(s, cs);
    var r := StripRight(l, cs);
    var i := |s| - |l|;
    assert l == s[i..];
    assert r == l[..|r|];
    assert r == s[i..i + |r|];
    forall j | i + |r| <= j < |s|
      ensures Drops(cs, s[j])
    {
      assert s[j] == l[j - i];
    }
    assert Strip(s, cs) == r;
    assert StrippedAt(s, cs, i, r);
  }

  /** Python's replace of one character by the empty text: `s` with every
      `c` taken out and nothing else changed. */
  function RemoveAll(s: string, c: char): (r: string)
    ensures c !in r
    ensures forall x :: x != c ==> multiset(r)[x] == multiset(s)[x]
  {
    if s == [] then []
    else
      assert s == [s[0]] + s[1..];
      (if s[0] == c then [] else [s[0]]) + RemoveAll(s[1..], c)
  }

  lemma {:induction false} RemoveAllAppend(a: string, b: string, c: char)
    ensures RemoveAll(a + b, c) == RemoveAll(a, c) + RemoveAll(b, c)
  {
    if a != [] {
      assert (a + b)[1..] == a[1..] + b;
      RemoveAllAppend(a[1..], b, c);
    } else {
      assert a + b == b;
    }
  }

  lemma {:induction false} RemoveAllAbsent(s: string, c: char)
    requires c !in s
    ensures RemoveAll(s, c) == s
  {
    if s != [] {
      RemoveAllAbsent(s[1..], c);
    }
  }

  /** Python's split at one separator character: the pieces between the separators, one more than there
      are separators, empty ones included. */
  function Split(s: string, sep: char): (r: seq<string>)
    ensures |r| > 0 && forall i :: 0 <= i < |r| ==> sep !in r[i]
  {
    if s == [] then [[]]
    else
      var init := Split(s[..|s| - 1], sep);
      if s[|s| - 1] == sep then init + [[]]
      else init[..|init| - 1] + [init[|init| - 1] + [s[|s| - 1]]]
  }

  /** Python's join: the pieces in order with `sep` between neighbours. */
  function Join(pieces: seq<string>, sep: string): string {
    if pieces == [] then []
    else if |pieces| == 1 then pieces[0]
    else Join(pieces[..|pieces| - 1], sep) + sep + pieces[|pieces| - 1]
  }

  /** Splitting and joining with the same separator gives the text back. */
  lemma {:induction false} JoinOfSplit(s: string, sep: char)
    ensures Join(Split(s, sep), [sep]) == s
  {
    if s != [] {
      var s' := s[..|s| - 1];
      var c := s[|s| - 1];
      var init := Split(s', sep);
      JoinOfSplit(s', sep);
      assert s == s' + [c];
      if c != sep && |init| > 1 {
        var pieces := Split(s, sep);
        assert pieces[..|pieces| - 1] == init[..|init| - 1];
      }
    }
  }

  /** Appending text without a separator lengthens the last piece only. */
  lemma {:induction false} SplitAppendPlain(s: string, w: string, sep: char)
    requires sep !in w
    ensures var p := Split(s, sep);
            Split(s + w, sep) == p[..|p| - 1] + [p[|p| - 1] + w]
  {
    var p := Split(s, sep);
    if w == [] {
      assert s + w == s;
      assert p[|p| - 1] + w == p[|p| - 1];
      assert p == p[..|p| - 1] + [p[|p| - 1]];
    } else {
      var w' := w[..|w| - 1];
      var c := w[|w| - 1];
      SplitAppendPlain(s, w', sep);
      var init := Split(s + w', sep);
      assert (s + w)[..|s + w| - 1] == s + w';
      assert (s + w)[|s + w| - 1] == c && c != sep;
      assert init[..|init| - 1] == p[..|p| - 1];
      assert init[|init| - 1] + [c] == p[|p| - 1] + w;
    }
  }

  /** Joining pieces that hold no separator and splitting again gives the
      pieces back. */
  lemma {:induction false} SplitOfJoin(pieces: seq<string>, sep: char)
    requires |pieces| > 0 && forall i :: 0 <= i < |pieces| ==> sep !in pieces[i]
    ensures Split(Join(pieces, [sep]), sep) == pieces
  {
    var last := pieces[|pieces| - 1];
    if |pieces| == 1 {
      SplitAppendPlain([], last, sep);
      assert [] + last == last;
    } else {
      var init := pieces[..|pieces| - 1];
      var x := Join(init, [sep]);
      SplitOfJoin(init, sep);
      assert Split(x + [sep], sep) == init + [[]] by {
        assert (x + [sep])[..|x + [sep]| - 1] == x;
      }
      SplitAppendPlain(x + [sep], last, sep);
      assert (init + [[]])[..|init|] == init;
      assert [] + last == last;
      assert pieces == init + [last];
    }
  }

  /** Deleting every single quote, then every double quote. */
  function Unquote(s: string): (r: string)
    ensures '\'' !in r && '"' !in r
    ensures forall c :: c in r ==> c in s
  {
    var once := RemoveAll(s, '\'');
    var r := RemoveAll(once, '"');
    assert multiset(r)['\''] == multiset(once)['\''] == 0;
    assert forall c :: c in r ==> c in multiset(r) && c in multiset(once) && c in multiset(s);
    r
  }

  lemma UnquoteAppend(a: string, b: string)
    ensures Unquote(a + b) == Unquote(a) + Unquote(b)
  {
    RemoveAllAppend(a, b, '\'');
    RemoveAllAppend(RemoveAll(a, '\''), RemoveAll(b, '\''), '"');
  }

  lemma UnquoteClean(s: string)
    requires '\'' !in s && '"' !in s
    ensures Unquote(s) == s
  {
    RemoveAllAbsent(s, '\'');
    RemoveAllAbsent(s, '"');
  }

  /** The parse of a `waypoints` cell: strip the brackets, delete the quotes,
      split at the commas, trim each piece. */
  function ParseWaypoints(cell: string): (r: seq<string>)
    ensures |r| > 0
  {
    var unquoted := Unquote(Strip(cell, Brackets));
    var pieces := Split(unquoted, ',');
    seq(|pieces|, i requires 0 <= i < |pieces| => Strip(pieces[i], WhiteSpace))
  }

  /** A name as `ParseWaypoints` hands it out: no comma, no quote of either
      kind, and no white space at its ends. */
  predicate Clean(name: string) {
    && ',' !in name && '\'' !in name && '"' !in name
    && (name != [] ==> !IsSpace(name[0]) && !IsSpace(name[|name| - 1]))
  }

  /** Every parsed name is clean, and there is one per comma left after the
      brackets and quotes are gone, plus one. */
  lemma ParsedNamesClean(cell: string)
    ensures |ParseWaypoints(cell)| == |Split(Unquote(Strip(cell, Brackets)), ',')|
    ensures forall i :: 0 <= i < |ParseWaypoints(cell)| ==> Clean(ParseWaypoints(cell)[i])
  {
    var unquoted := Unquote(Strip(cell, Brackets));
    var pieces := Split(unquoted, ',');
    var r := ParseWaypoints(cell);
    forall i | 0 <= i < |r|
      ensures Clean(r[i])
    {
      SplitPiecesFrom(unquoted, ',', i);
      forall c | c in r[i]
        ensures c in unquoted
      {
        assert c in pieces[i] && c in multiset(pieces[i]);
      }
    }
  }

  /** Every piece of a split is made of the text's characters. */
  lemma {:induction false} SplitPiecesFrom(s: string, sep: char, i: nat)
    requires i < |Split(s, sep)|
    ensures multiset(Split(s, sep)[i]) <= multiset(s)
  {
    if s != [] {
      var s' := s[..|s| - 1];
      var c := s[|s| - 1];
      var init := Split(s', sep);
      assert s == s' + [c];
      if c == sep {
        if i < |init| {
          SplitPiecesFrom(s', sep, i);
        }
      } else if i < |init| - 1 {
        SplitPiecesFrom(s', sep, i);
      } else {
        SplitPiecesFrom(s', sep, |init| - 1);
        assert Split(s, sep)[i] == init[|init| - 1] + [c];
      }
    }
  }

  /** The text Python's `str` gives a list of names such as `['A', 'B']`,
      for names in which Python's string display needs no escape: no quote,
      no backslash and only printable characters. Names with those are
      shown differently by Python and are not covered here. */
  function Format(names: seq<string>): string {
    "[" + Join(Quoted(names), ", ") + "]"
  }

  function Quote(name: string): string {
    "'" + name + "'"
  }

  function Quoted(names: seq<string>): (r: seq<string>)
    ensures |r| == |names| && forall i :: 0 <= i < |names| ==> r[i] == Quote(names[i])
  {
    seq(|names|, i requires 0 <= i < |names| => Quote(names[i]))
  }

  /** The pieces of `Join(names, ", ")` split at the commas: every name but
      the first keeps the blank after its comma. */
  function Spaced(names: seq<string>): (r: seq<string>)
    ensures |r| == |names|
    ensures forall i :: 0 <= i < |names| ==> r[i] == if i == 0 then names[0] else " " + names[i]
  {
    seq(|names|, i requires 0 <= i < |names| => if i == 0 then names[0] else " " + names[i])
  }

  /** The cell of a non-empty list of clean names parses back to the
      names. An empty list does not: its cell `[]` parses to `['']`. */
  lemma ParseOfFormat(names: seq<string>)
    requires |names| > 0 && forall i :: 0 <= i < |names| ==> Clean(names[i])
    ensures ParseWaypoints(Format(names)) == names
  {
    var cell := Format(names);
    StripFormat(names);
    UnquoteQuoted(names);
    SpacedJoin(names);
    SpacedPlain(names);
    SplitOfJoin(Spaced(names), ',');
    var r := ParseWaypoints(cell);
    forall i | 0 <= i < |names|
      ensures r[i] == names[i]
    {
      StripClean(Spaced(names)[i], names[i]);
    }
  }

  /** Stripping the brackets off a formatted list leaves the quoted names. */
  lemma StripFormat(names: seq<string>)
    requires |names| > 0
    ensures Strip(Format(names), Brackets) == Join(Quoted(names), ", ")
  {
    var q := Join(Quoted(names), ", ");
    QuotedEnds(names);
    var cell := Format(names);
    assert StripLeft(cell, Brackets) == q + "]" by {
      assert cell[1..] == q + "]";
    }
    assert StripRight(q + "]", Brackets) == q by {
      assert (q + "]")[..|q|] == q;
    }
  }

  /** No spaced name holds a comma. */
  lemma SpacedPlain(names: seq<string>)
    requires forall i :: 0 <= i < |names| ==> Clean(names[i])
    ensures forall i :: 0 <= i < |names| ==> ',' !in Spaced(names)[i]
  {
    forall i | 0 <= i < |names|
      ensures ',' !in Spaced(names)[i]
    {
      assert Spaced(names)[i] == if i == 0 then names[0] else " " + names[i];
    }
  }

  /** The quoted list starts and ends with a quote. */
  lemma {:induction false} QuotedEnds(names: seq<string>)
    requires |names| > 0
    ensures var q := Join(Quoted(names), ", ");
            |q| >= 2 && q[0] == '\'' && q[|q| - 1] == '\''
  {
    var q := Quoted(names);
    if |names| > 1 {
      QuotedEnds(names[..|names| - 1]);
      assert Quoted(names[..|names| - 1]) == q[..|q| - 1];
    }
  }

  /** Deleting the quotes around a clean name gives the name. */
  lemma UnquoteName(name: string)
    requires Clean(name)
    ensures Unquote(Quote(name)) == name
  {
    var mark := "'";
    assert Quote(name) == (mark + name) + mark;
    UnquoteAppend(mark + name, mark);
    UnquoteAppend(mark, name);
    UnquoteClean(name);
    UnquoteMark();
  }

  lemma UnquoteMark()
    ensures Unquote("'") == []
  {
    assert RemoveAll("'", '\'') == [];
    assert RemoveAll([], '"') == [];
  }

  /** Deleting the quotes from the quoted names gives the names joined by
      ", ". */
  lemma {:induction false} UnquoteQuoted(names: seq<string>)
    requires |names| > 0 && forall i :: 0 <= i < |names| ==> Clean(names[i])
    ensures Unquote(Join(Quoted(names), ", ")) == Join(names, ", ")
  {
    var last := names[|names| - 1];
    UnquoteName(last);
    if |names| > 1 {
      var init := names[..|names| - 1];
      var q := Join(Quoted(init), ", ");
      UnquoteQuoted(init);
      assert Quoted(names)[..|names| - 1] == Quoted(init);
      assert Join(Quoted(names), ", ") == q + ", " + Quote(last);
      UnquoteAppend(q + ", ", Quote(last));
      UnquoteAppend(q, ", ");
      UnquoteClean(", ");
    }
  }

  /** Joining by ", " is joining the spaced names by ",". */
  lemma {:induction false} SpacedJoin(names: seq<string>)
    requires |names| > 0
    ensures Join(names, ", ") == Join(Spaced(names), ",")
  {
    if |names| > 1 {
      var init := names[..|names| - 1];
      SpacedJoin(init);
      assert Spaced(names)[..|names| - 1] == Spaced(init);
      assert ", " + names[|names| - 1] == "," + (" " + names[|names| - 1]);
    }
  }

  /** Trimming a clean name, with or without the blank before it, gives the
      name. */
  lemma StripClean(piece: string, name: string)
    requires Clean(name) && (piece == name || piece == " " + name)
    ensures Strip(piece, WhiteSpace) == name
  {
    if piece == " " + name {
      assert piece[1..] == name;
    }
  }

  /** A two-name cell, as the handler's data holds it. */
  lemma ParseExampleList()
    ensures ParseWaypoints("['A', 'B']") == ["A", "B"]
  {
    var names := ["A", "B"];
    assert Quote("A") == "'A'" && Quote("B") == "'B'";
    assert Quoted(names)[0] == "'A'" && Quoted(names)[1] == "'B'";
    assert Quoted(names) == ["'A'", "'B'"];
    assert Quoted(names)[..1] == ["'A'"];
    assert Join(Quoted(names), ", ") == "'A', 'B'";
    assert Format(names) == "['A', 'B']";
    assert Clean(names[0]) && Clean(names[1]);
    ParseOfFormat(names);
  }

  /** The cell of an empty list does not give an empty plan: it gives one
      waypoint with an empty name. */
  lemma ParseEmptyCell()
    ensures ParseWaypoints("[]") == [""]
  {
    assert StripLeft("[]", Brackets) == StripLeft("]", Brackets) == [];
    assert Strip("[]", Brackets) == [];
    assert RemoveAll([], '\'') == [];
    assert RemoveAll([], '"') == [];
    assert Split([], ',') == [[]];
  }
}
