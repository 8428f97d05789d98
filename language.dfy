/** The translation context: a language choice (English or Turkish), the
    nested translation table of each language, and `t`, which walks a dotted
    key path through the active table and falls back to the key itself. */
module Language {
  import opened Types
  import opened Text

  datatype Lang = En | Tr

  /** A translation table: a section maps names to sub-tables, a leaf is a
      translated string. */
  datatype Table = Leaf(text: string) | Node(entries: map<string, Table>)

  /** The code under which a language is stored and compared. */
  function LanguageCode(lang: Lang): string {
    match lang
    case En => "en"
    case Tr => "tr"
  }

  /** The stored-preference acceptance rule: only exactly "en" or "tr" is
      a language; anything else (or nothing stored) is not. */
  function ParseLanguage(stored: Option<string>): (r: Option<Lang>)
    ensures r.Some? <==> stored == Some("en") || stored == Some("tr")
    ensures r.Some? ==> LanguageCode(r.value) == stored.value
  {
    if stored == Some("en") then Some(En)
    else if stored == Some("tr") then Some(Tr)
    else None
  }

  /** Storing a language and reading it back gives the same language. */
  lemma LanguageCodeRoundTrip(lang: Lang)
    ensures ParseLanguage(Some(LanguageCode(lang))) == Some(lang)
  {
  }

  /** `s.split(sep)` for a one-character separator: the pieces between
      separators, always at least one. */
  function Split(s: string, sep: char): (parts: seq<string>)
    ensures |parts| >= 1
    ensures forall i :: 0 <= i < |parts| ==> sep !in parts[i]
    ensures Join(parts, [sep]) == s
    decreases |s|
  {
    if s == [] then [""]
    else
      var rest := Split(s[1..], sep);
      if s[0] == sep then
        assert Join([""] + rest, [sep]) == [sep] + Join(rest, [sep]) by {
          assert ([""] + rest)[1..] == rest;
        }
        [""] + rest
      else
        var parts := [[s[0]] + rest[0]] + rest[1..];
        assert Join(parts, [sep]) == [s[0]] + Join(rest, [sep]) by {
          if |rest| > 1 {
            assert parts[1..] == rest[1..];
          }
        }
        parts
  }

  /** Splitting a string that starts with `c`: a separator opens a new,
      empty first piece; any other character joins the first piece. */
  lemma SplitCons(c: char, y: string, sep: char)
    ensures Split([c] + y, sep) ==
      if c == sep then [""] + Split(y, sep) else [[c] + Split(y, sep)[0]] + Split(y, sep)[1..]
  {
    assert ([c] + y)[0] == c && ([c] + y)[1..] == y;
  }

  /** Joining a list whose first piece is empty starts with the separator. */
  lemma JoinEmptyHead(parts: seq<string>, sep: char)
    requires |parts| > 1 && parts[0] == []
    ensures Join(parts, [sep]) == [sep] + Join(parts[1..], [sep])
  {
  }

  /** Joining a list whose first piece is not empty starts with that
      piece's first character. */
  lemma JoinHead(parts: seq<string>, sep: char)
    requires |parts| >= 1 && parts[0] != []
    ensures Join(parts, [sep]) == [parts[0][0]] + Join([parts[0][1..]] + parts[1..], [sep])
  {
    var p0 := parts[0];
    var shorter := [p0[1..]] + parts[1..];
    assert p0 == [p0[0]] + p0[1..];
    if |parts| > 1 {
      var rest := Join(parts[1..], [sep]);
      assert shorter[1..] == parts[1..];
      assert Join(shorter, [sep]) == p0[1..] + [sep] + rest;
      assert Join(parts, [sep]) == p0 + [sep] + rest;
      AppendAssoc([p0[0]], p0[1..], [sep] + rest);
      AppendAssoc(p0[1..], [sep], rest);
      AppendAssoc(p0, [sep], rest);
    } else {
      assert shorter == [p0[1..]];
    }
  }

  /** Splitting the dot-joined path of dot-free names gives the names back. */
  lemma {:induction false} SplitJoinRoundTrip(parts: seq<string>, sep: char)
    requires |parts| >= 1
    requires forall i :: 0 <= i < |parts| ==> sep !in parts[i]
    ensures Split(Join(parts, [sep]), sep) == parts
    decreases |parts|, |parts[0]|
  {
    var p0 := parts[0];
    if p0 == [] {
      if |parts| > 1 {
        SplitJoinRoundTrip(parts[1..], sep);
        JoinEmptyHead(parts, sep);
        SplitCons(sep, Join(parts[1..], [sep]), sep);
        assert parts == [""] + parts[1..];
      }
    } else {
      var shorter := [p0[1..]] + parts[1..];
      assert p0 == [p0[0]] + p0[1..];
      assert p0[0] != sep by {
        assert p0[0] in p0;
      }
      forall i | 0 <= i < |shorter| ensures sep !in shorter[i] {
        if i == 0 {
          assert forall c :: c in p0[1..] ==> c in p0;
        } else {
          assert shorter[i] == parts[i];
        }
      }
      SplitJoinRoundTrip(shorter, sep);
      JoinHead(parts, sep);
      SplitCons(p0[0], Join(shorter, [sep]), sep);
      assert shorter[1..] == parts[1..];
      assert parts == [p0] + parts[1..];
    }
  }

  /** The value reached by following `path` from `t`: None where JavaScript
      meets `undefined`, that is, a missing name or a step taken from a
      string rather than from a section. */
  function Walk(t: Table, path: seq<string>): Option<Table>
    decreases |path|
  {
    if path == [] then Some(t)
    else match t
      case Leaf(_) => None
      case Node(m) => if path[0] in m then Walk(m[path[0]], path[1..]) else None
  }

  /** One step into a section: a path that starts with a name the
      section has continues from that entry. */
  lemma WalkStep(t: Table, name: string, rest: seq<string>)
    requires t.Node? && name in t.entries
    ensures Walk(t, [name] + rest) == Walk(t.entries[name], rest)
  {
    assert ([name] + rest)[0] == name && ([name] + rest)[1..] == rest;
  }

  /** Following a path in two pieces is following the second piece from
      where the first one ends. */
  lemma {:induction false} WalkConcat(t: Table, p: seq<string>, q: seq<string>)
    ensures Walk(t, p + q) == match Walk(t, p) case None => None case Some(u) => Walk(u, q)
    decreases |p|
  {
    if p == [] {
      assert p + q == q;
    } else {
      assert (p + q)[0] == p[0] && (p + q)[1..] == p[1..] + q;
      if t.Node? && p[0] in t.entries {
        WalkConcat(t.entries[p[0]], p[1..], q);
      }
    }
  }

  /** `t(key)` over a given table: the string found at the dotted path, or
      the key itself when the path is missing or ends at a section. */
  function TranslateIn(table: Table, key: string): string {
    match Walk(table, Split(key, '.'))
    case Some(Leaf(s)) => s
    case _ => key
  }

  /** A path to a string gives that string. */
  lemma TranslateFound(table: Table, path: seq<string>, s: string)
    requires |path| >= 1 && forall i :: 0 <= i < |path| ==> '.' !in path[i]
    requires Walk(table, path) == Some(Leaf(s))
    ensures TranslateIn(table, Join(path, ".")) == s
  {
    SplitJoinRoundTrip(path, '.');
  }

  /** A missing path gives the key back. */
  lemma TranslateMissing(table: Table, path: seq<string>)
    requires |path| >= 1 && forall i :: 0 <= i < |path| ==> '.' !in path[i]
    requires Walk(table, path).None?
    ensures TranslateIn(table, Join(path, ".")) == Join(path, ".")
  {
    SplitJoinRoundTrip(path, '.');
  }

  /** A path that stops at a section gives the key back. */
  lemma TranslateSection(table: Table, path: seq<string>)
    requires |path| >= 1 && forall i :: 0 <= i < |path| ==> '.' !in path[i]
    requires Walk(table, path).Some? && Walk(table, path).value.Node?
    ensures TranslateIn(table, Join(path, ".")) == Join(path, ".")
  {
    SplitJoinRoundTrip(path, '.');
  }

  /** A path that continues past a string is missing. */
  lemma {:induction false} WalkPastLeaf(table: Table, p: seq<string>, q: seq<string>, s: string)
    requires Walk(table, p) == Some(Leaf(s)) && q != []
    ensures Walk(table, p + q).None?
  {
    WalkConcat(table, p, q);
  }

  /** Whatever `t` returns is either a string stored in the table or the
      unchanged key. */
  lemma TranslateLeafOrKey(table: Table, key: string)
    ensures var r := TranslateIn(table, key);
      r == key || exists path :: Walk(table, path) == Some(Leaf(r))
  {
    var path := Split(key, '.');
    if Walk(table, path).Some? && Walk(table, path).value.Leaf? {
      assert Walk(table, path) == Some(Leaf(TranslateIn(table, key)));
    }
  }

  /** The loop of `t`: walks the dotted path name by name through the
      table; gives up with the key as soon as the current value is not a
      section, and at the end returns the value if it is a string. */
  method LookupKey(table: Table, key: string) returns (r: string)
    ensures r == TranslateIn(table, key)
  {
    var keys := Split(key, '.');
    var value: Option<Table> := Some(table);
    var i := 0;
    while i < |keys|
      invariant 0 <= i <= |keys|
      invariant value == Walk(table, keys[..i])
    {
      WalkConcat(table, keys[..i], [keys[i]]);
      assert keys[..i + 1] == keys[..i] + [keys[i]];
      if value.Some? && value.value.Node? {
        var m := value.value.entries;
        value := if keys[i] in m then Some(m[keys[i]]) else None;
      } else {
        WalkConcat(table, keys[..i], keys[i..]);
        assert keys == keys[..i] + keys[i..];
        r := key;
        return;
      }
      i := i + 1;
    }
    assert keys[..i] == keys;
    if value.Some? && value.value.Leaf? {
      r := value.value.text;
    } else {
      r := key;
    }
  }

}
