/** The file set of a submission: what the server accepts, what the command line sends, and the
    quota summary built from a count. */
module Files {
  import opened Prelude
  import opened Tables
  import opened Text
  import opened Lists

  datatype UploadFile = UploadFile(name: string, content: seq<bv8>)

  datatype FileError = MissingFiles | InvalidSubmission | SubmissionTooLarge

  // ----- the server

  predicate PlainName(name: string) {
    name != "" && IsTrimmed(name) && '/' !in name && '\\' !in name
  }

  /** A plain name is not empty, equals itself trimmed, and has no slash or backslash. */
  lemma PlainNameMeans(name: string)
    ensures PlainName(name) <==>
              name != "" && TrimSpace(name) == name && forall c | c in name :: c != '/' && c != '\\'
  {
    TrimSpaceTrims(name);
  }

  function Names(files: seq<UploadFile>): seq<string> {
    Map((f: UploadFile) => f.name, files)
  }

  lemma NamesAre(files: seq<UploadFile>)
    ensures forall x :: x in Names(files) <==> exists i :: 0 <= i < |files| && files[i].name == x
  {
    forall i | 0 <= i < |files| ensures files[i].name in Names(files) {
      assert Names(files)[i] == files[i].name;
    }
  }

  // An upload the lab can take: plain, distinct names, exactly the declared ones, in limit.
  ghost predicate Acceptable(expected: seq<string>, limit: int, files: seq<UploadFile>) {
    && files != [] && SameMembers(Names(files), expected) && Distinct(Names(files))
    && forall i | 0 <= i < |files| :: PlainName(files[i].name) && |files[i].content| <= limit
  }

  // Nothing is wrong with the first n files.
  ghost predicate FineSoFar(expected: seq<string>, limit: int, files: seq<UploadFile>, n: nat)
    requires n <= |files|
  {
    forall i | 0 <= i < n :: FineName(expected, files, i) && |files[i].content| <= limit
  }

  ghost predicate FineName(expected: seq<string>, files: seq<UploadFile>, i: nat)
    requires i < |files|
  {
    && PlainName(files[i].name) && files[i].name in expected
    && forall j | 0 <= j < i :: files[j].name != files[i].name
  }

  // The error of the first offending file among the first n.
  ghost function FirstOffence(expected: seq<string>, limit: int, files: seq<UploadFile>, n: nat): Option<FileError>
    requires n <= |files|
  {
    if n == 0 then None
    else if FirstOffence(expected, limit, files, n - 1).Some? then FirstOffence(expected, limit, files, n - 1)
    else if !FineName(expected, files, n - 1) then Some(InvalidSubmission)
    else if |files[n - 1].content| > limit then Some(SubmissionTooLarge)
    else None
  }

  // limit is the parsed size limit of the manifest, if it could be parsed.
  ghost function FileVerdict(expected: seq<string>, limit: Option<int>, files: seq<UploadFile>): Option<FileError> {
    if files == [] then Some(MissingFiles)
    else if limit.None? then Some(InvalidSubmission)
    else if FirstOffence(expected, limit.value, files, |files|).Some?
    then FirstOffence(expected, limit.value, files, |files|)
    else if forall x | x in expected :: x in Names(files) then None
    else Some(MissingFiles)
  }

  method ValidateFiles(expected: seq<string>, limit: Option<int>, files: seq<UploadFile>) returns (r: Option<FileError>)
    ensures r == FileVerdict(expected, limit, files)
  {
    hide FirstOffence, TrimSpace, IsTrimmed;
    if |files| == 0 {
      return Some(MissingFiles);
    }
    if limit.None? {
      return Some(InvalidSubmission);
    }
    var expectedSet: set<string> := {};
    for i := 0 to |expected|
      invariant forall x :: x in expectedSet <==> x in expected[..i]
    {
      expectedSet := expectedSet + {expected[i]};
    }
    assert expected[..|expected|] == expected;
    var seen: set<string> := {};
    NoOffenceYet(expected, limit.value, files);
    for i := 0 to |files|
      invariant forall x :: x in seen <==> exists j :: 0 <= j < i && files[j].name == x
      invariant FirstOffence(expected, limit.value, files, i).None?
    {
      var name := files[i].name;
      NextOffence(expected, limit.value, files, i);
      TrimSpaceTrims(name);
      if TrimSpace(name) != name {
        return Some(InvalidSubmission);
      }
      if name == "" || '/' in name || '\\' in name {
        return Some(InvalidSubmission);
      }
      if name !in expectedSet {
        return Some(InvalidSubmission);
      }
      if name in seen {
        return Some(InvalidSubmission);
      }
      if |files[i].content| > limit.value {
        return Some(SubmissionTooLarge);
      }
      seen := seen + {name};
    }
    NamesAre(files);
    assert forall x | x in Names(files) :: x in seen;
    for i := 0 to |expected|
      invariant forall k | 0 <= k < i :: expected[k] in seen
    {
      if expected[i] !in seen {
        return Some(MissingFiles);
      }
    }
    return None;
  }

  lemma NoOffenceYet(expected: seq<string>, limit: int, files: seq<UploadFile>)
    ensures FirstOffence(expected, limit, files, 0).None?
  {}

  lemma NextOffence(expected: seq<string>, limit: int, files: seq<UploadFile>, i: nat)
    requires i < |files| && FirstOffence(expected, limit, files, i).None?
    ensures !FineName(expected, files, i) ==> FirstOffence(expected, limit, files, |files|) == Some(InvalidSubmission)
    ensures FineName(expected, files, i) && |files[i].content| > limit ==>
              FirstOffence(expected, limit, files, |files|) == Some(SubmissionTooLarge)
    ensures FineName(expected, files, i) && |files[i].content| <= limit ==>
              FirstOffence(expected, limit, files, i + 1).None?
  {
    hide FineName;
    FirstOffenceStands(expected, limit, files, i + 1, |files|);
  }

  lemma {:induction false} FirstOffenceStands(expected: seq<string>, limit: int, files: seq<UploadFile>, m: nat, n: nat)
    requires m <= n <= |files|
    ensures FirstOffence(expected, limit, files, m).Some? ==>
              FirstOffence(expected, limit, files, n) == FirstOffence(expected, limit, files, m)
  {
    if m < n {
      FirstOffenceStands(expected, limit, files, m, n - 1);
    }
  }

  lemma {:induction false} OffenceMeans(expected: seq<string>, limit: int, files: seq<UploadFile>, n: nat)
    requires n <= |files|
    ensures FirstOffence(expected, limit, files, n).None? <==> FineSoFar(expected, limit, files, n)
    ensures FirstOffence(expected, limit, files, n) != Some(MissingFiles)
    ensures FirstOffence(expected, limit, files, n) == Some(SubmissionTooLarge) ==>
              exists i: nat :: TooLargeAt(expected, limit, files, i) && i < n
  {
    if n > 0 {
      OffenceMeans(expected, limit, files, n - 1);
      if FirstOffence(expected, limit, files, n - 1).None?
         && FirstOffence(expected, limit, files, n) == Some(SubmissionTooLarge) {
        assert TooLargeAt(expected, limit, files, n - 1);
      }
    }
  }

  // Everything is fine up to a file whose name is fine but whose content is too long.
  ghost predicate TooLargeAt(expected: seq<string>, limit: int, files: seq<UploadFile>, i: nat) {
    i < |files| && FineSoFar(expected, limit, files, i) && FineName(expected, files, i) && |files[i].content| > limit
  }

  lemma FineIsAcceptable(expected: seq<string>, limit: int, files: seq<UploadFile>)
    requires files != [] && FineSoFar(expected, limit, files, |files|) && forall x | x in expected :: x in Names(files)
    ensures Acceptable(expected, limit, files)
  {
    hide PlainName;
    var names := Names(files);
    forall i, j | 0 <= i < j < |names| ensures names[i] != names[j] {
      assert FineName(expected, files, j);
    }
    forall x | x in names ensures x in expected {
      var i :| 0 <= i < |names| && names[i] == x;
      assert FineName(expected, files, i);
    }
  }

  lemma AcceptableIsFine(expected: seq<string>, limit: int, files: seq<UploadFile>)
    requires Acceptable(expected, limit, files)
    ensures FineSoFar(expected, limit, files, |files|)
  {
    hide PlainName;
    var names := Names(files);
    forall i | 0 <= i < |files| ensures FineName(expected, files, i) {
      assert names[i] in names;
      forall j | 0 <= j < i ensures files[j].name != files[i].name {
        assert names[j] != names[i];
      }
    }
  }

  lemma FineMeansAcceptable(expected: seq<string>, limit: int, files: seq<UploadFile>)
    ensures Acceptable(expected, limit, files) <==>
            files != [] && FineSoFar(expected, limit, files, |files|) && forall x | x in expected :: x in Names(files)
  {
    hide FineSoFar;
    if files != [] && FineSoFar(expected, limit, files, |files|) && forall x | x in expected :: x in Names(files) {
      FineIsAcceptable(expected, limit, files);
    }
    if Acceptable(expected, limit, files) {
      AcceptableIsFine(expected, limit, files);
    }
  }

  /** validateFiles accepts exactly the acceptable uploads.  Of the others it reports a missing file
      only if nothing was sent or everything sent is in order, and an excess of size only for the
      first file that offends. */
  lemma FileVerdictMeans(expected: seq<string>, limit: int, files: seq<UploadFile>)
    ensures FileVerdict(expected, Some(limit), files).None? <==> Acceptable(expected, limit, files)
    ensures FileVerdict(expected, Some(limit), files) == Some(MissingFiles) <==>
              files == []
              || (FineSoFar(expected, limit, files, |files|) && exists x :: x in expected && x !in Names(files))
    ensures FileVerdict(expected, Some(limit), files) == Some(SubmissionTooLarge) <==>
              exists i: nat :: TooLargeAt(expected, limit, files, i)
  {
    OffenceMeans(expected, limit, files, |files|);
    FineMeansAcceptable(expected, limit, files);
    forall i: nat | TooLargeAt(expected, limit, files, i)
      ensures FirstOffence(expected, limit, files, |files|) == Some(SubmissionTooLarge)
    {
      OffenceMeans(expected, limit, files, i);
      FirstOffenceStands(expected, limit, files, i + 1, |files|);
    }
  }

  // ----- the command line

  datatype LocalFile = LocalFile(name: string, path: string, content: seq<bv8>)

  datatype LocalError =
    | NoFiles | NothingDeclared | BadPath | DuplicateFile | Unreadable | MissingRequired | UnexpectedFile

  function Clean(paths: seq<string>): seq<string> {
    Map(TrimSpace, paths)
  }

  function BaseNames(paths: seq<string>): seq<string> {
    Map(Base, paths)
  }

  // Every path has a name of its own, and the names are the declared ones, each once.
  ghost predicate PathsMatch(expected: seq<string>, paths: seq<string>) {
    && paths != [] && "" !in Clean(paths)
    && Distinct(BaseNames(Clean(paths))) && Distinct(expected) && SameMembers(BaseNames(Clean(paths)), expected)
  }

  // What the first loop puts into the map: the n first paths under their names.
  ghost predicate ProvidedBy(names: seq<string>, clean: seq<string>, n: nat, provided: map<string, string>)
    requires n <= |names| == |clean|
  {
    && (forall i | 0 <= i < n :: clean[i] != "" && names[i] in provided && provided[names[i]] == clean[i])
    && (forall x | x in provided :: x in names[..n])
    && (forall i, j | 0 <= i < j < n :: names[i] != names[j])
  }

  // The first n declared names were provided, each asked for once.
  ghost predicate AllProvided(expected: seq<string>, all: map<string, string>, n: nat)
    requires n <= |expected|
  {
    forall k | 0 <= k < n :: expected[k] in all && expected[k] !in expected[..k]
  }

  // The files read so far.
  ghost predicate ReadFrom(expected: seq<string>, all: map<string, string>, disk: map<string, seq<bv8>>,
                           ordered: seq<LocalFile>)
    requires |ordered| <= |expected|
  {
    forall k | 0 <= k < |ordered| ::
      && ordered[k].name == expected[k] && expected[k] in all && ordered[k].path == all[expected[k]]
      && ordered[k].path in disk && ordered[k].content == disk[ordered[k].path]
  }

  lemma MoreProvided(names: seq<string>, clean: seq<string>, n: nat, provided: map<string, string>)
    requires n < |names| == |clean| && ProvidedBy(names, clean, n, provided) && clean[n] != "" && names[n] !in provided
    ensures ProvidedBy(names, clean, n + 1, provided[names[n] := clean[n]])
  {
    assert names[..n + 1] == names[..n] + [names[n]];
  }

  lemma AlreadyProvided(names: seq<string>, clean: seq<string>, n: nat, provided: map<string, string>)
    requires n < |names| == |clean| && ProvidedBy(names, clean, n, provided) && names[n] in provided
    ensures !Distinct(names)
  {
    var i :| 0 <= i < n && names[..n][i] == names[n];
  }

  /** validateSubmissionFiles: the given paths must name exactly the declared files; the result
      lists them in manifest order, each with its own path and the content read from there. */
  method ValidateSubmissionFiles(expected: seq<string>, paths: seq<string>, disk: map<string, seq<bv8>>)
    returns (r: Result<seq<LocalFile>, LocalError>)
    ensures r.Ok? <==> PathsMatch(expected, paths) && forall x | x in Clean(paths) :: x in disk
    ensures r.Ok? ==> |r.value| == |expected| && forall i | 0 <= i < |expected| ::
              FileOf(expected[i], paths, disk, r.value[i])
  {
    ghost var names, cleaned := BaseNames(Clean(paths)), Clean(paths);
    if |paths| == 0 {
      return Err(NoFiles);
    }
    if |expected| == 0 {
      assert names[0] in names;
      return Err(NothingDeclared);
    }
    var provided: map<string, string> := map[];
    for i := 0 to |paths|
      invariant ProvidedBy(names, cleaned, i, provided)
    {
      var clean := TrimSpace(paths[i]);
      assert clean == cleaned[i] && Base(clean) == names[i];
      if clean == "" {
        assert cleaned[i] in cleaned;
        return Err(BadPath);
      }
      if Base(clean) in provided {
        AlreadyProvided(names, cleaned, i, provided);
        return Err(DuplicateFile);
      }
      MoreProvided(names, cleaned, i, provided);
      provided := provided[Base(clean) := clean];
    }
    r := ReadProvided(expected, provided, disk);
    ProvidedMatch(expected, paths, provided);
    ProvidedReadable(names, cleaned, provided, disk);
    if r.Ok? {
      forall i | 0 <= i < |expected| ensures FileOf(expected[i], paths, disk, r.value[i]) {
        FilesRead(expected, paths, provided, disk, r.value, i);
      }
    }
  }

  ghost predicate FileOf(name: string, paths: seq<string>, disk: map<string, seq<bv8>>, file: LocalFile) {
    && file.name == name && file.path in disk && file.content == disk[file.path]
    && file.path in Clean(paths) && Base(file.path) == name
  }

  lemma ProvidedKeys(names: seq<string>, clean: seq<string>, all: map<string, string>)
    requires |names| == |clean| && ProvidedBy(names, clean, |names|, all)
    ensures (forall x | x in names :: x in all) && (forall x | x in all :: x in names) && Distinct(names)
            && "" !in clean
  {
    assert names[..|names|] == names;
    forall x | x in names ensures x in all {
      var i :| 0 <= i < |names| && names[i] == x;
    }
  }

  lemma ProvidedMatch(expected: seq<string>, paths: seq<string>, all: map<string, string>)
    requires ProvidedBy(BaseNames(Clean(paths)), Clean(paths), |paths|, all) && paths != []
    ensures AllProvided(expected, all, |expected|) && (forall x | x in all :: x in expected) <==>
              PathsMatch(expected, paths)
  {
    hide TrimSpace, Base, ProvidedBy;
    var names := BaseNames(Clean(paths));
    ProvidedKeys(names, Clean(paths), all);
    FreshMeansDistinct(expected);
    assert AllProvided(expected, all, |expected|) <==> Distinct(expected) && forall x | x in expected :: x in all;
  }

  lemma FreshMeansDistinct(expected: seq<string>)
    ensures (forall k | 0 <= k < |expected| :: expected[k] !in expected[..k]) <==> Distinct(expected)
  {
    if forall k | 0 <= k < |expected| :: expected[k] !in expected[..k] {
      forall i, j | 0 <= i < j < |expected| ensures expected[i] != expected[j] {
        assert expected[j] !in expected[..j] && expected[..j][i] == expected[i];
      }
    }
  }

  lemma ProvidedReadable(names: seq<string>, clean: seq<string>, all: map<string, string>, disk: map<string, seq<bv8>>)
    requires |names| == |clean| && ProvidedBy(names, clean, |names|, all)
    ensures (forall x | x in all :: all[x] in disk) <==> forall x | x in clean :: x in disk
  {
    ProvidedKeys(names, clean, all);
    if forall x | x in all :: all[x] in disk {
      forall x | x in clean ensures x in disk {
        var i :| 0 <= i < |clean| && clean[i] == x;
        assert names[i] in all;
      }
    }
    if forall x | x in clean :: x in disk {
      forall x | x in all ensures all[x] in disk {
        var i :| 0 <= i < |names| && names[i] == x;
        assert clean[i] in clean;
      }
    }
  }

  lemma FilesRead(expected: seq<string>, paths: seq<string>, all: map<string, string>, disk: map<string, seq<bv8>>,
                  files: seq<LocalFile>, i: nat)
    requires ProvidedBy(BaseNames(Clean(paths)), Clean(paths), |paths|, all)
    requires |files| == |expected| && ReadFrom(expected, all, disk, files) && i < |expected|
    ensures FileOf(expected[i], paths, disk, files[i])
  {
    hide TrimSpace, Base;
    var names, clean := BaseNames(Clean(paths)), Clean(paths);
    ProvidedKeys(names, clean, all);
    assert expected[i] in all;
    var k :| 0 <= k < |names| && names[k] == expected[i];
    assert clean[k] in clean && all[names[k]] == clean[k];
  }

  // The second loop and the tests after it.
  method ReadProvided(expected: seq<string>, all: map<string, string>, disk: map<string, seq<bv8>>)
    returns (r: Result<seq<LocalFile>, LocalError>)
    ensures r.Ok? <==>
              AllProvided(expected, all, |expected|) && (forall x | x in all :: x in expected)
              && forall x | x in all :: all[x] in disk
    ensures r.Ok? ==> |r.value| == |expected| && ReadFrom(expected, all, disk, r.value)
  {
    var provided := all;
    var missing: seq<string> := [];
    var ordered: seq<LocalFile> := [];
    for i := 0 to |expected|
      invariant forall x :: x in provided <==> x in all && x !in expected[..i]
      invariant forall x | x in provided :: provided[x] == all[x]
      invariant missing == [] <==> AllProvided(expected, all, i)
      invariant |ordered| <= i && (missing == [] ==> |ordered| == i && ReadFrom(expected, all, disk, ordered))
    {
      var name := expected[i];
      assert expected[..i + 1] == expected[..i] + [name];
      if name !in provided {
        missing := missing + [name];
      } else {
        var path := provided[name];
        if path !in disk {
          return Err(Unreadable);
        }
        ordered := ordered + [LocalFile(name, path, disk[path])];
        provided := provided - {name};
      }
    }
    assert expected[..|expected|] == expected;
    if |missing| > 0 {
      return Err(MissingRequired);
    }
    if |provided| > 0 {
      var x :| x in provided;
      return Err(UnexpectedFile);
    }
    forall x | x in all ensures x in expected && all[x] in disk {
      assert x !in provided;
      var k :| 0 <= k < |expected| && expected[k] == x;
      assert ordered[k].path == all[x];
    }
    return Ok(ordered);
  }

  /** Whatever the command line accepts, the server accepts too, in any order of the files, provided
      the declared names are plain and the contents in limit. */
  lemma ServerTakesWhatClientSends(expected: seq<string>, limit: int, files: seq<UploadFile>, sent: seq<UploadFile>)
    requires expected != [] && Names(files) == expected && Distinct(expected)
    requires forall i | 0 <= i < |files| :: PlainName(files[i].name) && |files[i].content| <= limit
    requires multiset(sent) == multiset(files)
    ensures FileVerdict(expected, Some(limit), sent).None?
  {
    FileVerdictMeans(expected, limit, sent);
    Rearranged(sent, files);
    MapCounts((f: UploadFile) => f.name, sent, files);
    Rearranged(Names(sent), Names(files));
    forall i | 0 <= i < |sent| ensures PlainName(sent[i].name) && |sent[i].content| <= limit {
      assert sent[i] in files;
    }
  }

  // ----- quota usage

  // A row as the database returns it: its creation time may be null.
  datatype Row = Row(quota: QuotaState, createdAt: Option<Time>)

  predicate WithinQuotaWindow(at: Option<Time>, start: Time, end: Time) {
    at.Some? && start <= at.value < end
  }

  predicate Counts(row: Row, start: Time, end: Time) {
    IsActive(row.quota) && WithinQuotaWindow(row.createdAt, start, end)
  }

  // Those of the first n rows that count.
  ghost function Counted(ids: seq<SubId>, rows: seq<Row>, start: Time, end: Time, n: nat): set<SubId>
    requires n <= |rows| == |ids|
  {
    set k | 0 <= k < n && Counts(rows[k], start, end) :: ids[k]
  }

  lemma OneMoreRow(ids: seq<SubId>, rows: seq<Row>, start: Time, end: Time, n: nat)
    requires Distinct(ids) && n < |rows| == |ids|
    ensures |Counted(ids, rows, start, end, n + 1)| ==
            |Counted(ids, rows, start, end, n)| + if Counts(rows[n], start, end) then 1 else 0
  {
    hide Counts;
    var before := Counted(ids, rows, start, end, n);
    assert ids[n] !in before;
    assert Counted(ids, rows, start, end, n + 1) ==
           if Counts(rows[n], start, end) then before + {ids[n]} else before;
  }

  lemma AllCounted(subs: map<SubId, Submission>, ids: seq<SubId>, rows: seq<Row>, a: Account, start: Time, end: Time)
    requires (forall x :: x in ids <==> x in subs && subs[x].Owner() == a) && |rows| == |ids|
    requires forall i | 0 <= i < |ids| :: rows[i] == Row(subs[ids[i]].quota, Some(subs[ids[i]].createdAt))
    ensures Counted(ids, rows, start, end, |rows|) == UsageRows(subs, a, start, end)
  {
    forall x | x in UsageRows(subs, a, start, end) ensures x in Counted(ids, rows, start, end, |rows|) {
      var k :| 0 <= k < |ids| && ids[k] == x;
      assert Counts(rows[k], start, end);
    }
    forall x | x in Counted(ids, rows, start, end, |rows|) ensures x in UsageRows(subs, a, start, end) {
      var k :| 0 <= k < |rows| && Counts(rows[k], start, end) && ids[k] == x;
      assert ids[k] in ids;
    }
  }

  /** CountQuotaUsage over the rows of an account is the count the intake statement makes. */
  method CountQuotaUsage(subs: map<SubId, Submission>, ids: seq<SubId>, rows: seq<Row>, a: Account, start: Time,
                         end: Time)
    returns (used: nat)
    requires Distinct(ids) && (forall x :: x in ids <==> x in subs && subs[x].Owner() == a)
    requires |rows| == |ids| && forall i | 0 <= i < |ids| ::
               rows[i] == Row(subs[ids[i]].quota, Some(subs[ids[i]].createdAt))
    ensures used == |UsageRows(subs, a, start, end)|
  {
    used := 0;
    for i := 0 to |rows|
      invariant used == |Counted(ids, rows, start, end, i)|
    {
      OneMoreRow(ids, rows, start, end, i);
      if rows[i].quota != Pending && rows[i].quota != Charged {
        continue;
      }
      if !WithinQuotaWindow(rows[i].createdAt, start, end) {
        continue;
      }
      used := used + 1;
    }
    AllCounted(subs, ids, rows, a, start, end);
  }

  datatype QuotaSummary = QuotaSummary(daily: int, used: int, left: int, bonus: Option<int>)

  // BuildQuotaSummaryWithBonus
  method BuildQuotaSummary(daily: int, used: int, bonusRemaining: int) returns (r: Option<QuotaSummary>)
    ensures r.None? <==> daily <= 0
    ensures r.Some? ==> r.value.daily == daily && r.value.used == used && 0 <= r.value.left
    ensures r.Some? && used <= daily ==> r.value.left + used == daily
    ensures r.Some? && used > daily ==> r.value.left == 0
    ensures r.Some? ==> r.value.bonus == if bonusRemaining > 0 then Some(bonusRemaining) else None
  {
    if daily <= 0 {
      return None;
    }
    var left := daily - used;
    if left < 0 {
      left := 0;
    }
    return Some(QuotaSummary(daily, used, left, if bonusRemaining > 0 then Some(bonusRemaining) else None));
  }
}
