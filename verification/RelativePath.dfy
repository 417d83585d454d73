/** Workspace-relative path names: normalisation and the allowlist test.

    Names are sequences of characters.  `Path(value)` keeps a POSIX root (one
    slash, or exactly two) and drops empty and "." components. */
module RelativePath {

  datatype Normalized = Normal(name: string) | InvalidRelativePath | PathEscape

  predicate StartsWith(s: string, prefix: string) {
    |prefix| <= |s| && s[..|prefix|] == prefix
  }

  predicate EndsWithSlash(s: string) {
    |s| > 0 && s[|s| - 1] == '/'
  }

  function StripDotSlash(s: string): string {
    if StartsWith(s, "./") then StripDotSlash(s[2..]) else s
  }

  function StripTrailingSlashes(s: string): string {
    if EndsWithSlash(s) then StripTrailingSlashes(s[..|s| - 1]) else s
  }

  function Split(s: string): (parts: seq<string>)
    ensures |parts| > 0
    ensures forall p, c :: p in parts && c in p ==> c in s && c != '/'
  {
    if s == "" then [""]
    else
      var rest := Split(s[1..]);
      if s[0] == '/' then [""] + rest else [[s[0]] + rest[0]] + rest[1..]
  }

  predicate IsComponent(p: string) {
    p != "" && p != "." && '/' !in p
  }

  function Keep(parts: seq<string>): (kept: seq<string>)
    ensures forall p :: p in kept ==> p in parts && p != "" && p != "."
  {
    if parts == [] then []
    else if parts[0] == "" || parts[0] == "." then Keep(parts[1..])
    else [parts[0]] + Keep(parts[1..])
  }

  function Components(s: string): seq<string> {
    Keep(Split(s))
  }

  /** The root that POSIX paths keep: "//" only for exactly two slashes. */
  function Root(s: string): (r: string)
    ensures r == "" <==> s == "" || s[0] != '/'
    ensures r == "//" <==> |s| >= 2 && s[0] == '/' == s[1] && (|s| > 2 ==> s[2] != '/')
    ensures r in {"", "/", "//"}
  {
    if !StartsWith(s, "/") then ""
    else if StartsWith(s, "//") && !StartsWith(s, "///") then "//"
    else "/"
  }

  function Join(parts: seq<string>): string {
    if parts == [] then ""
    else if |parts| == 1 then parts[0]
    else parts[0] + "/" + Join(parts[1..])
  }

  function AsPosix(s: string): string {
    var name := Root(s) + Join(Components(s));
    if name == "" then "." else name
  }

  function Normalize(relative: string): Normalized {
    if relative == "" || '\0' in relative || relative[0] == '/' then InvalidRelativePath
    else
      var value := StripDotSlash(relative);
      if value == "" || ".." in Components(value) then PathEscape
      else Normal(AsPosix(value))
  }

  /** The stripping loop as the program runs it. */
  method NormalizeRelativePath(relative: string) returns (r: Normalized)
    ensures r == Normalize(relative)
  {
    if relative == "" || '\0' in relative || relative[0] == '/' {
      return InvalidRelativePath;
    }
    var value := relative;
    while StartsWith(value, "./")
      invariant StripDotSlash(value) == StripDotSlash(relative)
      decreases |value|
    {
      value := value[2..];
    }
    if value == "" || ".." in Components(value) {
      return PathEscape;
    }
    return Normal(AsPosix(value));
  }

  /** One allowlist entry admits an already normalised name. */
  predicate Admits(entry: string, name: string) {
    var item := Normalize(StripTrailingSlashes(entry));
    item.Normal? && (name == item.name || (EndsWithSlash(entry) && StartsWith(name, item.name + "/")))
  }

  predicate PathAllowed(relative: string, allowlist: seq<string>) {
    var n := Normalize(relative);
    n.Normal? && exists i :: 0 <= i < |allowlist| && Admits(allowlist[i], n.name)
  }

  lemma {:induction false} SplitSeparator(a: string, b: string)
    requires '/' !in a
    ensures Split(a + "/" + b) == [a] + Split(b)
    ensures Split(a) == [a]
  {
    if a == "" {
      assert a + "/" + b == "/" + b;
      assert ("/" + b)[1..] == b;
    } else {
      SplitSeparator(a[1..], b);
      assert (a + "/" + b)[1..] == a[1..] + "/" + b;
      assert a == [a[0]] + a[1..];
    }
  }

  lemma {:induction false} KeepComponents(parts: seq<string>)
    requires forall p :: p in parts ==> IsComponent(p)
    ensures Keep(parts) == parts
  {
    if parts != [] {
      assert IsComponent(parts[0]);
      KeepComponents(parts[1..]);
    }
  }

  lemma {:induction false} SplitJoin(parts: seq<string>)
    requires parts != [] && forall p :: p in parts ==> IsComponent(p)
    ensures Split(Join(parts)) == parts
  {
    assert IsComponent(parts[0]);
    if |parts| == 1 {
      SplitSeparator(parts[0], "");
    } else {
      SplitSeparator(parts[0], Join(parts[1..]));
      SplitJoin(parts[1..]);
    }
  }

  lemma {:induction false} StripNoNul(s: string)
    requires '\0' !in s
    ensures '\0' !in StripDotSlash(s)
  {
    if StartsWith(s, "./") {
      StripNoNul(s[2..]);
    }
  }

  lemma {:induction false} JoinNoNul(parts: seq<string>)
    requires forall p :: p in parts ==> '\0' !in p
    ensures '\0' !in Join(parts)
  {
    if |parts| > 1 {
      JoinNoNul(parts[1..]);
    }
  }

  lemma ComponentsAreComponents(s: string)
    ensures forall p :: p in Components(s) ==> IsComponent(p)
    ensures '\0' !in s ==> forall p :: p in Components(s) ==> '\0' !in p
  {
  }

  /** A joined name starts like its first component, so never with "/" or "./". */
  lemma JoinHead(parts: seq<string>)
    requires parts != [] && IsComponent(parts[0])
    ensures var name := Join(parts);
            name != "" && name[0] == parts[0][0] && name[0] != '/' && !StartsWith(name, "./")
  {
    var name := Join(parts);
    var first := parts[0];
    assert first <= name;
    assert name[0] == first[0];
    assert |first| == 1 ==> first == [first[0]] && first[0] != '.';
    assert |first| > 1 ==> name[1] == first[1];
  }

  /** A relative name of proper components is its own normal form. */
  lemma JoinIsNormal(parts: seq<string>)
    requires parts != [] && forall p :: p in parts ==> IsComponent(p) && '\0' !in p
    requires ".." !in parts
    ensures Normalize(Join(parts)) == Normal(Join(parts))
  {
    var name := Join(parts);
    JoinHead(parts);
    JoinNoNul(parts);
    assert StripDotSlash(name) == name;
    assert Components(name) == parts by {
      SplitJoin(parts);
      KeepComponents(parts);
    }
    assert AsPosix(name) == name by {
      assert Root(name) == "";
    }
  }

  /** Normalisation is idempotent exactly on names whose leading "./" hide no slash: stripping
      them exposes it, and the second call refuses it. */
  lemma NormalizeIdempotent(relative: string)
    requires Normalize(relative).Normal?
    ensures var once := Normalize(relative).name;
            Normalize(once) == Normal(once) <==> !StartsWith(StripDotSlash(relative), "/")
    ensures var once := Normalize(relative).name;
            StartsWith(StripDotSlash(relative), "/") ==> Normalize(once) == InvalidRelativePath
  {
    var value := StripDotSlash(relative);
    StripNoNul(relative);
    ComponentsAreComponents(value);
    var parts := Components(value);
    if Root(value) == "" {
      assert Root(value) + Join(parts) == Join(parts);
      if parts == [] {
        assert Normalize(".") == Normal(".");
      } else {
        JoinIsNormal(parts);
        JoinHead(parts);
      }
    }
  }

  // ---------------------------------------------------------------- what names and entries mean

  /** Dropping the leading "./" drops no component. */
  lemma {:induction false} StrippingKeepsComponents(s: string)
    ensures Components(StripDotSlash(s)) == Components(s)
  {
    if StartsWith(s, "./") {
      StrippingKeepsComponents(s[2..]);
      assert s == "." + "/" + s[2..];
      SplitSeparator(".", s[2..]);
    }
  }

  /** The normal form of a name has the components of the name, so it names the same file. */
  lemma NormalizeKeepsComponents(relative: string)
    requires Normalize(relative).Normal?
    ensures Components(Normalize(relative).name) == Components(relative)
  {
    var value := StripDotSlash(relative);
    var parts := Components(value);
    StrippingKeepsComponents(relative);
    ComponentsAreComponents(value);
    if parts == [] {
      SplitSeparator(".", "");
      SplitSeparator("", "");
      SplitSeparator("", "/");
      assert Split("") == [""] && "" + "/" + "" == "/" && "" + "/" + "/" == "//";
      assert Components(".") == [] && Components("/") == [] && Components("//") == [];
      assert Join([]) == "" && Root(value) + "" == Root(value);
    } else {
      var name := Join(parts);
      SplitJoin(parts);
      KeepComponents(parts);
      assert Components("/" + name) == parts by { assert ("/" + name)[1..] == name; }
      assert Components("//" + name) == parts by {
        assert ("//" + name)[1..] == "/" + name && ("/" + name)[1..] == name;
      }
      assert "" + name == name;
    }
  }

  lemma {:induction false} JoinAppended(dir: seq<string>, tail: seq<string>)
    requires dir != [] && tail != []
    ensures Join(dir + tail) == Join(dir) + "/" + Join(tail)
  {
    assert (dir + tail)[1..] == dir[1..] + tail;
    if |dir| > 1 { JoinAppended(dir[1..], tail); }
  }

  lemma {:induction false} SplitAppended(dir: seq<string>, rest: string)
    requires dir != [] && forall p :: p in dir ==> IsComponent(p)
    ensures Split(Join(dir) + "/" + rest) == dir + Split(rest)
  {
    hide Split;
    assert IsComponent(dir[0]);
    if |dir| == 1 {
      SplitSeparator(dir[0], rest);
    } else {
      SplitAppended(dir[1..], rest);
      assert Join(dir) + "/" + rest == dir[0] + "/" + (Join(dir[1..]) + "/" + rest);
      SplitSeparator(dir[0], Join(dir[1..]) + "/" + rest);
    }
  }

  /** A joined name goes on behind another and a slash exactly when its components do. */
  lemma InsideExactly(parts: seq<string>, dir: seq<string>)
    requires parts != [] && dir != []
    requires (forall p :: p in parts ==> IsComponent(p)) && (forall p :: p in dir ==> IsComponent(p))
    ensures StartsWith(Join(parts), Join(dir) + "/") <==> dir < parts
  {
    if StartsWith(Join(parts), Join(dir) + "/") {
      var rest := Join(parts)[|Join(dir)| + 1..];
      assert Join(parts) == Join(dir) + "/" + rest;
      SplitAppended(dir, rest);
      SplitJoin(parts);
    }
    if dir < parts {
      assert parts == dir + parts[|dir|..];
      JoinAppended(dir, parts[|dir|..]);
    }
  }

  /** An allowlist entry, by components: a file entry allows that very file, a directory entry the
      directory and everything below it, and nothing else. */
  lemma AllowsByComponents(parts: seq<string>, dir: seq<string>)
    requires Proper(parts) && Proper(dir)
    ensures PathAllowed(Join(parts), [Join(dir)]) <==> parts == dir
    ensures PathAllowed(Join(parts), [Join(dir) + "/"]) <==> dir <= parts
  {
    JoinIsNormal(parts);
    JoinIsNormal(dir);
    InsideExactly(parts, dir);
    SplitJoin(parts);
    SplitJoin(dir);
    NoTrailingSlash(dir);
    var name, item := Join(parts), Join(dir);
    assert StripTrailingSlashes(item) == item;
    assert (item + "/")[..|item + "/"| - 1] == item;
    hide Normalize;
    assert [item][0] == item && [item + "/"][0] == item + "/";
    assert PathAllowed(name, [item]) <==> Admits(item, name);
    assert PathAllowed(name, [item + "/"]) <==> Admits(item + "/", name);
  }

  predicate Proper(parts: seq<string>) {
    parts != [] && forall p :: p in parts ==> IsComponent(p) && '\0' !in p && p != ".."
  }

  lemma {:induction false} NoTrailingSlash(parts: seq<string>)
    requires parts != [] && forall p :: p in parts ==> IsComponent(p)
    ensures Join(parts) != "" && !EndsWithSlash(Join(parts))
  {
    assert IsComponent(parts[0]);
    if |parts| > 1 { NoTrailingSlash(parts[1..]); }
  }

  /** A concrete name that is accepted once and refused the second time. */
  lemma SecondNormalizationCanRefuse()
    ensures Normalize(".//a") == Normal("/a")
    ensures Normalize("/a") == InvalidRelativePath
  {
  }
}
