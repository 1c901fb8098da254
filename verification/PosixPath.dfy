/** scripts/detect-deploy-changes.py: path normalisation, with the part of Python's PurePosixPath it
    relies on: a root, and the names between slashes that are neither empty nor ".". */
module PosixPath {
  import opened GoText

  function Split(s: string): (parts: seq<string>)
    ensures |parts| >= 1
    ensures forall i :: 0 <= i < |parts| ==> '/' !in parts[i]
  {
    if s == "" then [""]
    else if s[0] == '/' then [""] + Split(s[1..])
    else
      var rest := Split(s[1..]);
      [[s[0]] + rest[0]] + rest[1..]
  }

  function Join(parts: seq<string>): string {
    if |parts| == 0 then ""
    else if |parts| == 1 then parts[0]
    else parts[0] + "/" + Join(parts[1..])
  }

  function Names(parts: seq<string>): seq<string> {
    if parts == [] then []
    else (if parts[0] == "" || parts[0] == "." then [] else [parts[0]]) + Names(parts[1..])
  }

  function Root(s: string): string {
    if !HasPrefix(s, "/") then ""
    else if HasPrefix(s, "//") && !HasPrefix(s, "///") then "//"
    else "/"
  }

  function Render(root: string, names: seq<string>): string {
    var text := root + Join(names);
    if text == "" then "." else text
  }

  /** PurePosixPath(s).as_posix(). */
  function Posix(s: string): string {
    Render(Root(s), Names(Split(s)))
  }

  /** PurePosixPath(s).parent. */
  function Parent(s: string): string {
    var names := Names(Split(s));
    Render(Root(s), if names == [] then [] else names[..|names| - 1])
  }

  function StripDots(s: string): string {
    if HasPrefix(s, "./") then StripDots(s[2..]) else s
  }

  method NormalizePath(path: string) returns (normalized: string)
    ensures normalized == Posix(path)
  {
    normalized := Posix(path);
    while HasPrefix(normalized, "./")
      invariant StripDots(normalized) == StripDots(Posix(path))
      decreases |normalized|
    {
      normalized := normalized[2..];
    }
    NothingToStrip(path);
  }

  // ---------------------------------------------------------------- splitting and joining

  predicate NoSlash(parts: seq<string>) {
    forall i :: 0 <= i < |parts| ==> '/' !in parts[i]
  }

  /** A name between slashes that a path keeps. */
  predicate Clean(parts: seq<string>) {
    NoSlash(parts) && forall i :: 0 <= i < |parts| ==> parts[i] != "" && parts[i] != "."
  }

  lemma {:induction false} JoinOfSplit(s: string)
    ensures Join(Split(s)) == s
  {
    if s == "" {
    } else {
      JoinOfSplit(s[1..]);
      var rest := Split(s[1..]);
      assert s == [s[0]] + s[1..];
      if s[0] == '/' {
        assert Split(s)[1..] == rest;
      } else {
        assert Split(s)[1..] == rest[1..];
      }
    }
  }

  /** A part without slashes, then a slash, then the rest. */
  lemma {:induction false} SplitFirst(part: string, rest: string)
    requires '/' !in part
    ensures Split(part + "/" + rest) == [part] + Split(rest)
  {
    var whole := part + "/" + rest;
    if part == "" {
      assert whole[1..] == rest;
    } else {
      assert whole[1..] == part[1..] + "/" + rest;
      SplitFirst(part[1..], rest);
      assert [part[0]] + part[1..] == part;
      var tail := Split(whole[1..]);
      assert tail[0] == part[1..] && tail[1..] == Split(rest);
    }
  }

  lemma {:induction false} SplitSingle(part: string)
    requires '/' !in part
    ensures Split(part) == [part]
  {
    if part != "" {
      SplitSingle(part[1..]);
      assert [part[0]] + part[1..] == part;
    }
  }

  lemma {:induction false} SplitOfJoin(parts: seq<string>)
    requires parts != [] && NoSlash(parts)
    ensures Split(Join(parts)) == parts
  {
    if |parts| == 1 {
      SplitSingle(parts[0]);
    } else {
      SplitOfJoin(parts[1..]);
      SplitFirst(parts[0], Join(parts[1..]));
    }
  }

  lemma {:induction false} NamesAreClean(parts: seq<string>)
    requires NoSlash(parts)
    ensures Clean(Names(parts))
  {
    if parts != [] {
      NamesAreClean(parts[1..]);
    }
  }

  lemma {:induction false} NamesOfClean(parts: seq<string>)
    requires Clean(parts)
    ensures Names(parts) == parts
  {
    if parts != [] {
      NamesOfClean(parts[1..]);
    }
  }

  // ---------------------------------------------------------------- normal forms

  lemma LeadingSlash(t: string)
    ensures Names(Split("/" + t)) == Names(Split(t))
  {
    assert ("/" + t)[1..] == t;
    assert Split("/" + t)[1..] == Split(t);
  }

  lemma RootBack(root: string, body: string)
    requires root in {"", "/", "//"} && (body == "" || body[0] != '/')
    ensures Root(root + body) == root
  {
    var text := root + body;
    assert forall i :: 0 <= i < |root| ==> text[i] == '/';
    if body != "" {
      assert text[|root|] == body[0];
    }
  }

  lemma NamesBack(root: string, body: string)
    requires root in {"", "/", "//"}
    ensures Names(Split(root + body)) == Names(Split(body))
  {
    hide Names, Split;
    LeadingSlash(body);
    LeadingSlash("/" + body);
    assert "//" + body == "/" + ("/" + body);
    assert "" + body == body;
  }

  lemma RenderedBack(root: string, names: seq<string>)
    requires root in {"", "/", "//"} && Clean(names)
    ensures Root(Render(root, names)) == root && Names(Split(Render(root, names))) == names
  {
    var body := Join(names);
    if names == [] {
      SplitSingle(".");
      SplitSingle("");
      assert Names(Split("")) == [] && Names(Split(".")) == [];
    } else {
      SplitOfJoin(names);
      NamesOfClean(names);
      assert body != "" && body[0] == names[0][0];
      assert body[0] in names[0];
    }
    hide Split, Names;
    RootBack(root, body);
    NamesBack(root, body);
  }

  /** Normalising keeps what a path names: its root and its names. */
  lemma PosixKeeps(s: string)
    ensures Root(Posix(s)) == Root(s) && Names(Split(Posix(s))) == Names(Split(s))
  {
    NamesAreClean(Split(s));
    RenderedBack(Root(s), Names(Split(s)));
  }

  lemma PosixIdempotent(s: string)
    ensures Posix(Posix(s)) == Posix(s)
  {
    PosixKeeps(s);
  }

  /** Two spellings have one normal form exactly when they name the same thing. */
  lemma SameFormIff(s: string, t: string)
    ensures Posix(s) == Posix(t) <==> Root(s) == Root(t) && Names(Split(s)) == Names(Split(t))
  {
    PosixKeeps(s);
    PosixKeeps(t);
  }

  lemma NoNames()
    ensures Join([]) == ""
  {
  }

  /** Joined names do not begin with "./". */
  lemma JoinStarts(names: seq<string>)
    requires Clean(names) && names != []
    ensures Join(names) != "" && !HasPrefix(Join(names), "./")
  {
    var first := names[0];
    assert first <= Join(names);
    if |first| == 1 {
      assert first == [first[0]];
    } else {
      assert first[1] in first && Join(names)[1] == first[1];
    }
  }

  /** The loop that strips leading "./" never has anything to strip. */
  lemma NothingToStrip(s: string)
    ensures !HasPrefix(Posix(s), "./") && StripDots(Posix(s)) == Posix(s)
  {
    var root, names := Root(s), Names(Split(s));
    NamesAreClean(Split(s));
    hide Names, Split, Join;
    assert Join([]) == "" by {
      NoNames();
    }
    if root == "" && names != [] {
      JoinStarts(names);
    }
    assert root != "" ==> Posix(s)[0] == '/';
  }

  /** A root and clean names are already normal. */
  lemma AlreadyNormal(root: string, names: seq<string>)
    requires root in {"", "/", "//"} && Clean(names)
    ensures Posix(root + Join(names)) == if root + Join(names) == "" then "." else root + Join(names)
  {
    RenderedBack(root, names);
    NoNames();
    hide Names, Split, Join, Root;
    if root + Join(names) == "" {
      EmptyIsDot();
    }
  }

  lemma EmptyIsDot()
    ensures Posix("") == "."
  {
    SplitSingle("");
  }

  /** More than two leading slashes are one. */
  lemma ThreeSlashes(names: seq<string>)
    requires Clean(names) && names != []
    ensures Posix("///" + Join(names)) == "/" + Join(names)
  {
    var body := Join(names);
    assert Root("///" + body) == "/";
    assert "///" + body == "/" + ("//" + body);
    LeadingSlash("//" + body);
    NamesBack("//", body);
    SplitOfJoin(names);
    NamesOfClean(names);
    hide Names, Split, Join, Root;
  }

  /** Empty and "." segments name nothing: a path and the same path with one of them in front of a relative
      rest have one normal form. */
  lemma DotDropped(rest: string)
    requires rest != "" && rest[0] != '/'
    ensures Posix("./" + rest) == Posix(rest)
  {
    SplitFirst(".", rest);
    assert "./" + rest == "." + "/" + rest;
    assert ([] + ["."] + Split(rest))[1..] == Split(rest);
    assert Names(["."] + Split(rest)) == Names(Split(rest)) by {
      assert (["."] + Split(rest))[1..] == Split(rest);
    }
  }

  /** The parent of a path keeps all of its names but the last. */
  lemma ParentDropsLast(root: string, names: seq<string>, last: string)
    requires root in {"", "/", "//"} && Clean(names + [last])
    ensures Parent(root + Join(names + [last])) == if root == "" && names == [] then "." else root + Join(names)
  {
    var all := names + [last];
    assert Clean(names) by {
      assert forall i :: 0 <= i < |names| ==> names[i] == all[i];
    }
    RenderedBack(root, all);
    NonEmptyJoin(all);
    assert all[..|all| - 1] == names;
    hide Names, Split, Root;
    NoNames();
    if names != [] {
      NonEmptyJoin(names);
    }
  }

  lemma NonEmptyJoin(names: seq<string>)
    requires Clean(names) && names != []
    ensures Join(names) != ""
  {
  }
}
