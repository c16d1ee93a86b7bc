/** What client and server compute from a file set on their own: archive, content hash, signing text
    and artifact key.  The server receives the files in any order; both sides sort by name. */
module Canonical {
  import opened Lists
  import opened Files
  import opened Signing

  // tar, gzip and SHA-256: deterministic, otherwise unknown.  digest is the hexadecimal text.
  datatype Libraries = Libraries(entry: UploadFile -> seq<bv8>, finish: seq<bv8> -> seq<bv8>,
                                 digest: seq<bv8> -> string, utf8: string -> seq<bv8>)

  function ByName(x: UploadFile, y: UploadFile): bool { Below(x.name, y.name) }

  // ----- sorting by name, which need not be stable

  ghost predicate Arranges(sorted: seq<UploadFile>, files: seq<UploadFile>) {
    multiset(sorted) == multiset(files) && Ordered(sorted, ByName)
  }

  method SortByName(files: array<UploadFile>)
    modifies files
    ensures Arranges(files[..], old(files[..]))
  {
    ghost var was := files[..];
    NamesAreWeaklyOrdered(was);
    SortInPlace(files, ByName);
    SortOrdered(was, ByName);
    SortCounts(was, ByName);
  }

  lemma NamesAreWeaklyOrdered(files: seq<UploadFile>)
    ensures Weak(files, ByName)
  {
    forall x, y, z | x in files && y in files && z in files
      ensures (ByName(x, y) ==> !ByName(y, x)) && (ByName(x, y) ==> ByName(x, z) || ByName(z, y))
    {
      BelowOrder(x.name, y.name, z.name);
    }
  }

  lemma NamesAreTotal(files: seq<UploadFile>)
    requires Distinct(Names(files))
    ensures Total(files, ByName)
  {
    NamesAreWeaklyOrdered(files);
    forall x, y | x in files && y in files && x != y ensures ByName(x, y) || ByName(y, x) {
      var i :| 0 <= i < |files| && files[i] == x;
      var j :| 0 <= j < |files| && files[j] == y;
      assert Names(files)[i] != Names(files)[j];
      BelowOrder(x.name, y.name, x.name);
    }
  }

  // ----- the archive

  function Packed(lib: Libraries, files: seq<UploadFile>): seq<bv8> {
    if files == [] then [] else Packed(lib, files[..|files| - 1]) + lib.entry(files[|files| - 1])
  }

  // Some way of sorting the files by name yields this archive.
  ghost predicate IsArchive(lib: Libraries, files: seq<UploadFile>, archive: seq<bv8>) {
    exists sorted :: Arranges(sorted, files) && archive == lib.finish(Packed(lib, sorted))
  }

  method WriteEntries(lib: Libraries, sorted: array<UploadFile>) returns (buf: seq<bv8>)
    ensures buf == Packed(lib, sorted[..])
  {
    buf := [];
    for i := 0 to sorted.Length
      invariant buf == Packed(lib, sorted[..i])
    {
      assert sorted[..i + 1][..i] == sorted[..i];
      buf := buf + lib.entry(sorted[i]);
    }
    assert sorted[..sorted.Length] == sorted[..];
  }

  // storage.Archive, on the server.
  method Archive(lib: Libraries, files: seq<UploadFile>) returns (archive: seq<bv8>, hash: string)
    ensures IsArchive(lib, files, archive) && hash == lib.digest(archive)
  {
    var sorted := new UploadFile[|files|](i requires 0 <= i < |files| => files[i]);
    assert sorted[..] == files;
    SortByName(sorted);
    var buf := WriteEntries(lib, sorted);
    archive := lib.finish(buf);
    hash := lib.digest(archive);
  }

  // submissionArchiveHash, on the command line.
  method SubmissionArchiveHash(lib: Libraries, files: seq<UploadFile>) returns (hash: string)
    ensures exists archive :: IsArchive(lib, files, archive) && hash == lib.digest(archive)
  {
    var sorted := new UploadFile[|files|](i requires 0 <= i < |files| => files[i]);
    assert sorted[..] == files;
    SortByName(sorted);
    var buf := WriteEntries(lib, sorted);
    var archive := lib.finish(buf);
    assert IsArchive(lib, files, archive);
    hash := lib.digest(archive);
  }

  // ----- the artifact key

  function Join(names: seq<string>): string {
    if names == [] then "" else if |names| == 1 then names[0] else names[0] + "\n" + Join(names[1..])
  }

  function Prefix16(s: string): string { if |s| < 16 then s else s[..16] }

  function ArtifactKey(lib: Libraries, lab: string, user: int, names: seq<string>, contentHash: string): string {
    var fingerprint := lib.digest(lib.utf8(Join(Sort(names, Below))));
    lab + "/" + Decimal(user, "/" + Prefix16(fingerprint) + "-" + Prefix16(contentHash) + ".tar.gz")
  }

  // buildArtifactKey; eight bytes of the fingerprint are sixteen hexadecimal digits.
  method BuildArtifactKey(lib: Libraries, lab: string, user: int, fileNames: seq<string>, contentHash: string)
    returns (key: string)
    ensures key == ArtifactKey(lib, lab, user, fileNames, contentHash)
  {
    var names := new string[|fileNames|](i requires 0 <= i < |fileNames| => fileNames[i]);
    assert names[..] == fileNames;
    SortInPlace(names, Below);
    var fingerprint := lib.digest(lib.utf8(Join(names[..])));
    return lab + "/" + Decimal(user, "/" + Prefix16(fingerprint) + "-" + Prefix16(contentHash) + ".tar.gz");
  }

  lemma {:induction false} JoinReadsBack(names: seq<string>, names': seq<string>)
    requires names != [] && names' != [] && Join(names) == Join(names')
    requires (forall x | x in names :: '\n' !in x) && (forall x | x in names' :: '\n' !in x)
    ensures names == names'
  {
    var s := Join(names);
    assert names[0] in names && names'[0] in names';
    FirstLine(names);
    FirstLine(names');
    if |names| > 1 {
      Cancel(names[0] + "\n", Join(names[1..]), Join(names'[1..]));
      JoinReadsBack(names[1..], names'[1..]);
    }
    assert names == [names[0]] + names[1..] && names' == [names'[0]] + names'[1..];
  }

  // The position of the first such character, or the end.
  function UpTo(s: string, c: char): (n: nat)
    ensures n <= |s|
  {
    if s == "" || s[0] == c then 0 else 1 + UpTo(s[1..], c)
  }

  lemma {:induction false} UpToFound(a: string, c: char, x: string)
    requires c !in a
    ensures UpTo(a, c) == |a| && UpTo(a + ([c] + x), c) == |a|
  {
    if a != "" {
      assert (a + ([c] + x))[1..] == a[1..] + ([c] + x);
      UpToFound(a[1..], c, x);
    }
  }

  lemma FirstLine(names: seq<string>)
    requires names != [] && '\n' !in names[0]
    ensures UpTo(Join(names), '\n') == |names[0]| && names[0] == Join(names)[..|names[0]|]
    ensures |names| == 1 <==> |Join(names)| == |names[0]|
    ensures |names| > 1 ==> Join(names) == names[0] + "\n" + Join(names[1..])
  {
    if |names| == 1 {
      UpToFound(names[0], '\n', "");
    } else {
      assert Join(names) == names[0] + (['\n'] + Join(names[1..]));
      UpToFound(names[0], '\n', Join(names[1..]));
    }
  }

  // What distinguishes the names of two uploads in their keys.
  function Fingerprint(lib: Libraries, names: seq<string>): string { lib.digest(lib.utf8(Join(Sort(names, Below)))) }

  /** Two uploads get one key exactly if lab, user, the first sixteen characters of the fingerprints of
      their names and the first sixteen of their content hashes agree. */
  lemma KeysEqualIff(lib: Libraries, lab: string, user: int, names: seq<string>, hash: string, lab': string,
                     user': int, names': seq<string>, hash': string)
    requires '/' !in lab && '/' !in lab' && |hash| >= 16 && |hash'| >= 16
    requires |Fingerprint(lib, names)| >= 16 && |Fingerprint(lib, names')| >= 16
    ensures ArtifactKey(lib, lab, user, names, hash) == ArtifactKey(lib, lab', user', names', hash') <==>
            && lab == lab' && user == user' && Fingerprint(lib, names)[..16] == Fingerprint(lib, names')[..16]
            && hash[..16] == hash'[..16]
  {
    hide Fingerprint, Decimal;
    var f, f' := Fingerprint(lib, names), Fingerprint(lib, names');
    var k, k' := ArtifactKey(lib, lab, user, names, hash), ArtifactKey(lib, lab', user', names', hash');
    KeyParts(lib, lab, user, names, hash);
    KeyParts(lib, lab', user', names', hash');
    if k == k' {
      var tail, tail' := f[..16] + "-" + hash[..16] + ".tar.gz", f'[..16] + "-" + hash'[..16] + ".tar.gz";
      SlashReadsBack(lab, lab', Decimal(user, "/" + tail), Decimal(user', "/" + tail'));
      DecimalRead(user, '/', tail);
      DecimalRead(user', '/', tail');
      Cancel("/", tail, tail');
      assert f[..16] == tail[..16] && f'[..16] == tail'[..16];
      assert hash[..16] == tail[17..33] && hash'[..16] == tail'[17..33];
    }
  }

  lemma KeyParts(lib: Libraries, lab: string, user: int, names: seq<string>, hash: string)
    requires |Fingerprint(lib, names)| >= 16 && |hash| >= 16
    ensures
      var tail := Fingerprint(lib, names)[..16] + "-" + hash[..16] + ".tar.gz";
      ArtifactKey(lib, lab, user, names, hash) == lab + "/" + Decimal(user, "/" + tail)
  {
    var f := Fingerprint(lib, names);
    assert "/" + f[..16] + "-" + hash[..16] + ".tar.gz" == "/" + (f[..16] + "-" + hash[..16] + ".tar.gz");
    assert Prefix16(f) == f[..16] && Prefix16(hash) == hash[..16];
  }

  lemma SlashReadsBack(lab: string, lab': string, x: string, y: string)
    requires '/' !in lab && '/' !in lab' && lab + "/" + x == lab' + "/" + y
    ensures lab == lab' && x == y
  {
    var s := lab + "/" + x;
    UpToFound(lab, '/', x);
    UpToFound(lab', '/', y);
    assert s == lab + (['/'] + x) == lab' + (['/'] + y);
    assert lab == s[..|lab|] && lab' == s[..|lab'|];
    Cancel(lab + "/", x, y);
  }

  lemma Cancel(prefix: string, x: string, y: string)
    requires prefix + x == prefix + y
    ensures x == y
  {
    assert x == (prefix + x)[|prefix|..] && y == (prefix + y)[|prefix|..];
  }

  /** The names behind a fingerprint can be told from the text that is digested, if no name contains a
      line break. */
  lemma FingerprintNames(names: seq<string>, names': seq<string>)
    requires names != [] && names' != []
    requires (forall x | x in names :: '\n' !in x) && (forall x | x in names' :: '\n' !in x)
    ensures Join(Sort(names, Below)) == Join(Sort(names', Below)) <==> multiset(names) == multiset(names')
  {
    SortCounts(names, Below);
    SortCounts(names', Below);
    Rearranged(names, Sort(names, Below));
    Rearranged(names', Sort(names', Below));
    if Join(Sort(names, Below)) == Join(Sort(names', Below)) {
      JoinReadsBack(Sort(names, Below), Sort(names', Below));
    }
    if multiset(names) == multiset(names') {
      BelowTotal(names);
      SortForgetsOrder(names, names', Below);
    }
  }

  /** The packed entries are those of the files, one after the other. */
  lemma {:induction false} PackedInOrder(lib: Libraries, files: seq<UploadFile>, more: seq<UploadFile>)
    ensures Packed(lib, files + more) == Packed(lib, files) + Packed(lib, more)
    ensures forall f :: Packed(lib, [f]) == lib.entry(f)
  {
    if more == [] {
      assert files + more == files && Packed(lib, files) + [] == Packed(lib, files);
    } else {
      var init, last := more[..|more| - 1], more[|more| - 1];
      PackedInOrder(lib, files, init);
      assert (files + more)[..|files + more| - 1] == files + init;
    }
    assert forall f: UploadFile :: [f][..0] == [] && [] + lib.entry(f) == lib.entry(f);
  }

  // ----- agreement

  /** Files of distinct names have only one archive, in whatever order they arrive and however the
      sort treats equal names. */
  lemma ArchiveIgnoresOrder(lib: Libraries, files: seq<UploadFile>, sent: seq<UploadFile>, archive: seq<bv8>,
                            archive': seq<bv8>)
    requires Distinct(Names(files)) && multiset(files) == multiset(sent)
    requires IsArchive(lib, files, archive) && IsArchive(lib, sent, archive')
    ensures archive == archive'
  {
    var s :| Arranges(s, files) && archive == lib.finish(Packed(lib, s));
    var t :| Arranges(t, sent) && archive' == lib.finish(Packed(lib, t));
    NamesAreTotal(files);
    TotalRearranged(files, s, ByName);
    OneArrangement(s, t, ByName);
  }

  /** Distinctness is needed: two files of one name can be archived in two ways. */
  lemma EqualNamesHaveTwoArrangements(x: UploadFile, y: UploadFile)
    requires x.name == y.name && x != y
    ensures Arranges([x, y], [x, y]) && Arranges([y, x], [x, y]) && [x, y] != [y, x]
  {
    BelowOrder(x.name, y.name, x.name);
    assert [x, y][0] != [y, x][0];
  }

  lemma KeyIgnoresOrder(lib: Libraries, lab: string, user: int, names: seq<string>, names': seq<string>,
                        contentHash: string)
    requires multiset(names) == multiset(names')
    ensures ArtifactKey(lib, lab, user, names, contentHash) == ArtifactKey(lib, lab, user, names', contentHash)
  {
    BelowTotal(names);
    SortForgetsOrder(names, names', Below);
  }

  /** For every upload the lab can take, and every order in which the server sees its files, archive,
      content hash, signing text and artifact key are those of the order the client used. */
  lemma ClientAndServerAgree(lib: Libraries, expected: seq<string>, limit: int, files: seq<UploadFile>,
                             sent: seq<UploadFile>, clientArchive: seq<bv8>, serverArchive: seq<bv8>,
                             lab: string, user: int, timestamp: int, nonce: string)
    requires Acceptable(expected, limit, sent) && multiset(files) == multiset(sent)
    requires IsArchive(lib, files, clientArchive) && IsArchive(lib, sent, serverArchive)
    ensures clientArchive == serverArchive
    ensures SigningText(Payload(lab, timestamp, nonce, Names(files), lib.digest(clientArchive)))
         == SigningText(Payload(lab, timestamp, nonce, Names(sent), lib.digest(serverArchive)))
    ensures ArtifactKey(lib, lab, user, Names(files), lib.digest(clientArchive))
         == ArtifactKey(lib, lab, user, Names(sent), lib.digest(serverArchive))
  {
    MapCounts((f: UploadFile) => f.name, files, sent);
    Rearranged(Names(files), Names(sent));
    ArchiveIgnoresOrder(lib, files, sent, clientArchive, serverArchive);
    var hash := lib.digest(clientArchive);
    SigningIsInjective(Payload(lab, timestamp, nonce, Names(files), hash),
                       Payload(lab, timestamp, nonce, Names(sent), hash));
    KeyIgnoresOrder(lib, lab, user, Names(files), Names(sent), hash);
  }
}
