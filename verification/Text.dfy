/** Strings as the program treats them: trimming and splitting off the last path element. */
module Text {

  // The characters with the property White_Space, which strings.TrimSpace removes.
  predicate IsSpace(c: char) {
    || '\t' <= c <= '\r' || c == ' ' || c == '\U{85}' || c == '\U{A0}' || c == '\U{1680}'
       || '\U{2000}' <= c <= '\U{200A}'
    || c == '\U{2028}' || c == '\U{2029}' || c == '\U{202F}' || c == '\U{205F}' || c == '\U{3000}'
  }

  function TrimLeft(s: string): (r: string)
    ensures |r| <= |s| && r == s[|s| - |r|..] && (r != "" ==> !IsSpace(r[0]))
    ensures forall i | 0 <= i < |s| - |r| :: IsSpace(s[i])
  {
    if s != "" && IsSpace(s[0]) then TrimLeft(s[1..]) else s
  }

  function TrimRight(s: string): (r: string)
    ensures |r| <= |s| && r == s[..|r|] && (r != "" ==> !IsSpace(r[|r| - 1]))
    ensures forall i | |r| <= i < |s| :: IsSpace(s[i])
  {
    if s != "" && IsSpace(s[|s| - 1]) then TrimRight(s[..|s| - 1]) else s
  }

  function TrimSpace(s: string): string { TrimRight(TrimLeft(s)) }

  predicate IsTrimmed(s: string) {
    s == "" || (!IsSpace(s[0]) && !IsSpace(s[|s| - 1]))
  }

  /** White space is what the Unicode standard says: these 25 code points. */
  lemma SpacesAre(c: char)
    ensures IsSpace(c) <==> c as int in {0x9, 0xA, 0xB, 0xC, 0xD, 0x20, 0x85, 0xA0, 0x1680, 0x2000, 0x2001, 0x2002,
                                         0x2003, 0x2004, 0x2005, 0x2006, 0x2007, 0x2008, 0x2009, 0x200A, 0x2028,
                                         0x2029, 0x202F, 0x205F, 0x3000}
  {}

  predicate AllSpace(s: string) { forall c | c in s :: IsSpace(c) }

  // The middle of the string, up to white space on both sides.
  ghost predicate CutsTo(s: string, i: nat, j: nat, r: string) {
    i <= j <= |s| && r == s[i..j] && AllSpace(s[..i]) && AllSpace(s[j..])
  }

  lemma TrimSpaceCuts(s: string)
    ensures exists i: nat, j: nat :: CutsTo(s, i, j, TrimSpace(s))
  {
    hide IsSpace;
    var t := TrimLeft(s);
    var r := TrimRight(t);
    var i, j := |s| - |t|, |s| - |t| + |r|;
    assert r == s[i..j] && s[j..] == t[|r|..];
    assert r == TrimSpace(s);
    assert AllSpace(s[..i]);
    assert AllSpace(s[j..]);
    assert CutsTo(s, i, j, r);
  }

  /** The result is the argument without the white space at its ends; it is trimmed, and it is the argument
      exactly when that was trimmed already. */
  lemma TrimSpaceTrims(s: string)
    ensures exists i: nat, j: nat :: CutsTo(s, i, j, TrimSpace(s))
    ensures IsTrimmed(TrimSpace(s))
    ensures TrimSpace(s) == s <==> IsTrimmed(s)
    ensures TrimSpace(TrimSpace(s)) == TrimSpace(s)
  {
    hide IsSpace;
    TrimSpaceCuts(s);
    var t := TrimLeft(s);
    assert IsTrimmed(TrimSpace(s));
    if IsTrimmed(s) && s != "" {
      assert t == s;
    }
    TrimmedStays(TrimSpace(s));
  }

  lemma TrimmedStays(s: string)
    requires IsTrimmed(s)
    ensures TrimSpace(s) == s
  {
    if s != "" {
      assert TrimLeft(s) == s;
    }
  }

  /** Only white space trims to nothing. */
  lemma BlankTrimsToNothing(s: string)
    ensures TrimSpace(s) == "" <==> forall i | 0 <= i < |s| :: IsSpace(s[i])
  {
    var t := TrimLeft(s);
    if t != "" {
      assert !IsSpace(t[0]) && t[0] == s[|s| - |t|];
    }
  }

  // ----- paths

  function StripSlashes(path: string): (r: string)
    ensures |r| <= |path| && (r != "" ==> r[|r| - 1] != '/')
  {
    if path != "" && path[|path| - 1] == '/' then StripSlashes(path[..|path| - 1]) else path
  }

  function AfterLastSlash(path: string): (r: string)
    ensures '/' !in r && |r| <= |path| && (path != "" && path[|path| - 1] != '/' ==> r != "")
  {
    if path == "" || path[|path| - 1] == '/' then "" else AfterLastSlash(path[..|path| - 1]) + [path[|path| - 1]]
  }

  // filepath.Base with '/' as the separator: never empty, and a slash only for the root.
  function Base(path: string): (r: string)
    ensures r != "" && (r == "/" || '/' !in r)
  {
    if path == "" then "."
    else
      var p := AfterLastSlash(StripSlashes(path));
      if p == "" then "/" else p
  }

  predicate NoSlash(s: string) { '/' !in s }

  predicate OnlySlashes(s: string) { forall c | c in s :: c == '/' }

  // The element ends before some slashes at the end and begins after a slash or at the beginning.
  ghost predicate LastElement(path: string, i: nat, j: nat, r: string) {
    i < j <= |path| && r == path[i..j] && NoSlash(r) && OnlySlashes(path[j..]) && (i == 0 || path[i - 1] == '/')
  }

  lemma {:induction false} StripSlashesMeans(path: string)
    ensures StripSlashes(path) <= path && OnlySlashes(path[|StripSlashes(path)|..])
    ensures StripSlashes(path) == "" <==> OnlySlashes(path)
  {
    if path != "" && path[|path| - 1] != '/' {
      assert path[|path| - 1] in path;
    } else if path != "" {
      var init := path[..|path| - 1];
      StripSlashesMeans(init);
      assert forall c :: c in path <==> c in init || c == '/';
      assert path == init + ['/'] && path[|StripSlashes(path)|..] == init[|StripSlashes(path)|..] + ['/'];
    }
  }

  lemma {:induction false} AfterLastSlashMeans(path: string)
    ensures
      var r := AfterLastSlash(path);
      r == path[|path| - |r|..] && (|r| < |path| ==> path[|path| - |r| - 1] == '/')
  {
    if path != "" && path[|path| - 1] != '/' {
      var init := path[..|path| - 1];
      AfterLastSlashMeans(init);
      assert path == init + [path[|path| - 1]];
    }
  }

  lemma LastOfPrefix(path: string, p: string, r: string)
    requires p <= path && OnlySlashes(path[|p|..]) && r != "" && NoSlash(r) && |r| <= |p| && r == p[|p| - |r|..]
    requires |r| < |p| ==> p[|p| - |r| - 1] == '/'
    ensures LastElement(path, |p| - |r|, |p|, r)
  {}

  /** The base name is the last element of the path, without slashes at the end; it is a dot for no path
      at all and a slash for the root. */
  lemma BaseMeans(path: string)
    ensures path == "" ==> Base(path) == "."
    ensures path != "" && OnlySlashes(path) ==> Base(path) == "/"
    ensures !OnlySlashes(path) ==> exists i: nat, j: nat :: LastElement(path, i, j, Base(path))
  {
    var p := StripSlashes(path);
    var r := AfterLastSlash(p);
    StripSlashesMeans(path);
    AfterLastSlashMeans(p);
    if OnlySlashes(path) {
      assert r == "";
    } else {
      assert r != "" && Base(path) == r;
      LastOfPrefix(path, p, r);
      assert LastElement(path, |p| - |r|, |p|, r);
    }
  }
}
