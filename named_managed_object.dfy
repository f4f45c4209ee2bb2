// CoreDataKit/NamedManagedObject.swift: the entity name of a managed object
// class is the last non-empty dot-separated component of its class name (a
// Swift class name carries its module as a prefix).

module NamedManagedObject {
  import opened Strings

  /** `classString.characters.split { $0 == "." }`: the non-empty components. */
  function Components(classString: string): seq<string>
  {
    NonEmpty(Split(classString, '.'))
  }

  /** `entityName`. The source asserts that there is a component. */
  function EntityName(classString: string): (r: string)
    requires |Components(classString)| > 0
    ensures r != [] && '.' !in r
    ensures '.' !in classString ==> r == classString
  {
    var components := Components(classString);
    assert '.' !in classString ==> components == [classString] by {
      if '.' !in classString { SplitWithoutSeparator(classString, '.'); }
    }
    components[|components| - 1]
  }

  /** Whether the class name has a character other than a dot. */
  predicate HasNonDot(s: string)
  {
    exists i :: 0 <= i < |s| && s[i] != '.'
  }

  /** The characters after the last dot. */
  function Segment(s: string): (r: string)
    ensures '.' !in r
  {
    if |s| == 0 || s[|s| - 1] == '.' then "" else Segment(s[..|s| - 1]) + [s[|s| - 1]]
  }

  /** Reference definition read from the end: skip trailing dots, then take
    * what follows the last remaining dot. */
  function LastName(s: string): string
  {
    if |s| == 0 then ""
    else if s[|s| - 1] == '.' then LastName(s[..|s| - 1])
    else Segment(s)
  }

  /** A single character is one component, or two empty ones when it is the separator. */
  lemma SplitSingle(c: char, sep: char)
    ensures Split([c], sep) == if c == sep then ["", ""] else [[c]]
  {
    var rest := Split([c][1..], sep);
    assert [c][1..] == [];
    assert rest == [""];
    assert [c] + rest[0] == [c];
  }

  /** Splitting a text that starts with a known character. */
  lemma SplitCons(x: char, u: string, sep: char)
    ensures Split([x] + u, sep) ==
      if x == sep then [""] + Split(u, sep)
      else [[x] + Split(u, sep)[0]] + Split(u, sep)[1..]
  {
    assert ([x] + u)[0] == x && ([x] + u)[1..] == u;
  }

  /** Appending the separator adds an empty last component. */
  lemma {:induction false} SplitSnocSeparator(s: string, sep: char)
    ensures Split(s + [sep], sep) == Split(s, sep) + [""]
    decreases |s|
  {
    if |s| == 0 {
      assert s + [sep] == [sep];
      SplitSingle(sep, sep);
    } else {
      var x, u := s[0], s[1..];
      assert s == [x] + u;
      assert s + [sep] == [x] + (u + [sep]);
      SplitCons(x, u, sep);
      SplitCons(x, u + [sep], sep);
      SplitSnocSeparator(u, sep);
      var rest := Split(u, sep);
      if x != sep {
        assert (rest + [""])[1..] == rest[1..] + [""];
      }
    }
  }

  /** Appending another character extends the last component. */
  lemma {:induction false} SplitSnocOther(s: string, c: char, sep: char)
    requires c != sep
    ensures var parts := Split(s, sep);
      Split(s + [c], sep) == parts[..|parts| - 1] + [parts[|parts| - 1] + [c]]
    decreases |s|
  {
    if |s| == 0 {
      assert s + [c] == [c];
      SplitSingle(c, sep);
    } else {
      var x, u := s[0], s[1..];
      assert s == [x] + u;
      assert s + [c] == [x] + (u + [c]);
      SplitCons(x, u, sep);
      SplitCons(x, u + [c], sep);
      SplitSnocOther(u, c, sep);
      var parts := Split(s, sep);
      var rest := Split(u, sep);
      var rest' := Split(u + [c], sep);
      if x == sep {
        assert parts == [""] + rest;
        assert parts[..|parts| - 1] == [""] + rest[..|rest| - 1];
      } else if |rest| == 1 {
        assert rest' == [rest[0] + [c]];
        assert ([x] + rest[0]) + [c] == [x] + (rest[0] + [c]);
      } else {
        assert rest'[0] == rest[0];
        assert rest'[1..] == rest[1..|rest| - 1] + [rest[|rest| - 1] + [c]];
        assert parts[1..] == rest[1..];
        assert parts[..|parts| - 1] == [parts[0]] + parts[1..|parts| - 1];
        assert parts[1..|parts| - 1] == rest[1..|rest| - 1];
      }
    }
  }

  /** Splitting after appending one character. */
  lemma SplitSnoc(s: string, c: char, sep: char)
    ensures var parts := Split(s, sep);
      Split(s + [c], sep) ==
        if c == sep then parts + [""]
        else parts[..|parts| - 1] + [parts[|parts| - 1] + [c]]
  {
    if c == sep {
      SplitSnocSeparator(s, sep);
    } else {
      SplitSnocOther(s, c, sep);
    }
  }

  /** Filtering after appending one component. */
  lemma {:induction false} NonEmptySnoc(parts: seq<string>, p: string)
    ensures NonEmpty(parts + [p]) == NonEmpty(parts) + (if p == [] then [] else [p])
    decreases |parts|
  {
    if |parts| == 0 {
      assert parts + [p] == [p];
    } else {
      assert (parts + [p])[1..] == parts[1..] + [p];
      NonEmptySnoc(parts[1..], p);
    }
  }

  /** The last component of a split is the text after the last separator. */
  lemma {:induction false} LastComponentIsSegment(s: string)
    ensures var parts := Split(s, '.'); parts[|parts| - 1] == Segment(s)
    decreases |s|
  {
    if |s| > 0 {
      var t := s[..|s| - 1];
      assert s == t + [s[|s| - 1]];
      SplitSnoc(t, s[|s| - 1], '.');
      LastComponentIsSegment(t);
    }
  }

  /** A trailing dot adds no component and leaves the name alone. */
  lemma TrailingDotKeepsName(t: string)
    ensures Components(t + ['.']) == Components(t)
    ensures HasNonDot(t + ['.']) <==> HasNonDot(t)
  {
    var s := t + ['.'];
    SplitSnoc(t, '.', '.');
    NonEmptySnoc(Split(t, '.'), "");
    if HasNonDot(s) {
      var i :| 0 <= i < |s| && s[i] != '.';
      assert i < |t| && t[i] == s[i];
    }
    if HasNonDot(t) {
      var i :| 0 <= i < |t| && t[i] != '.';
      assert s[i] == t[i];
    }
  }

  /** A class name ending in another character has that character's segment
    * as its last component. */
  lemma OtherCharEndsName(t: string, c: char)
    requires c != '.'
    ensures HasNonDot(t + [c]) && |Components(t + [c])| > 0
    ensures EntityName(t + [c]) == Segment(t + [c])
  {
    var s := t + [c];
    assert s[|s| - 1] == c && s[..|s| - 1] == t;
    SplitSnoc(t, c, '.');
    var parts := Split(t, '.');
    var last := parts[|parts| - 1] + [c];
    assert Split(s, '.') == parts[..|parts| - 1] + [last];
    NonEmptySnoc(parts[..|parts| - 1], last);
    assert Components(s) == NonEmpty(parts[..|parts| - 1]) + [last];
    LastComponentIsSegment(t);
  }

  /** A class name has a component exactly when it has a non-dot character,
    * and then the entity name is the reference definition. */
  lemma {:induction false} EntityNameIsLastName(s: string)
    ensures |Components(s)| > 0 <==> HasNonDot(s)
    ensures HasNonDot(s) ==> EntityName(s) == LastName(s)
    decreases |s|
  {
    if |s| == 0 {
      assert Split(s, '.') == [""];
      assert Components(s) == [];
    } else {
      var t := s[..|s| - 1];
      var c := s[|s| - 1];
      assert s == t + [c];
      EntityNameIsLastName(t);
      if c == '.' {
        TrailingDotKeepsName(t);
      } else {
        OtherCharEndsName(t, c);
      }
    }
  }
}
