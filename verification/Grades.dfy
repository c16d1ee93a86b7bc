/** The import of final grades: how columns are classified, where every cell goes, what an import
    leaves in the table, and who can see it. */
module Grades {
  import opened Prelude
  import opened Tables
  import opened Text

  // ----- columns

  datatype Role = Ignore | StudentId | Total | Remark | Item

  datatype Column = Column(role: Role, title: string)

  const BOM := "\U{FEFF}"

  const TOTAL_ALIASES: set<string> :=
    {"total", "score", "grade", "\U{603B}\U{8BC4}", "\U{603B}\U{5206}", "\U{6210}\U{7EE9}"}

  const REMARK_ALIASES: set<string> := {"remark", "note", "comment", "\U{5907}\U{6CE8}", "\U{8BF4}\U{660E}"}

  function Label(raw: string): string {
    var s := TrimSpace(raw);
    if BOM <= s then s[1..] else s
  }

  // lower is strings.ToLower.
  function KeyOf(header: seq<string>, lower: string -> string, i: nat): string
    requires i < |header|
  {
    lower(Label(header[i]))
  }

  // The role of a column, from the whole header: the first column of a kind takes it.
  predicate FirstIn(header: seq<string>, lower: string -> string, keys: set<string>, i: nat)
    requires i < |header|
  {
    KeyOf(header, lower, i) in keys && forall j | 0 <= j < i :: KeyOf(header, lower, j) !in keys
  }

  function RoleOf(header: seq<string>, lower: string -> string, i: nat): Role
    requires i < |header|
  {
    if KeyOf(header, lower, i) == "" then Ignore
    else if FirstIn(header, lower, {"student_id"}, i) then StudentId
    else if FirstIn(header, lower, TOTAL_ALIASES, i) then Total
    else if FirstIn(header, lower, REMARK_ALIASES, i) then Remark
    else Item
  }

  function ColumnFor(header: seq<string>, lower: string -> string, i: nat): Column
    requires i < |header|
  {
    Column(RoleOf(header, lower, i), if RoleOf(header, lower, i) == Ignore then "" else Label(header[i]))
  }

  // What planColumns should return.
  ghost predicate IsPlan(header: seq<string>, lower: string -> string, plan: seq<Column>, studentIdx: int) {
    && |plan| == |header|
    && (forall i | 0 <= i < |header| :: plan[i] == ColumnFor(header, lower, i))
    && (if studentIdx < 0 then studentIdx == -1 && forall i | 0 <= i < |header| :: plan[i].role != StudentId
        else studentIdx < |header| && plan[studentIdx].role == StudentId)
  }

  predicate HasKey(header: seq<string>, lower: string -> string, key: string) {
    exists i :: 0 <= i < |header| && KeyOf(header, lower, i) == key
  }

  // Some earlier column has taken the kind.
  predicate TakenBefore(header: seq<string>, lower: string -> string, keys: set<string>, n: nat)
    requires n <= |header|
  {
    exists j :: 0 <= j < n && KeyOf(header, lower, j) in keys
  }

  method PlanColumns(header: seq<string>, lower: string -> string) returns (plan: seq<Column>, studentIdx: int)
    ensures IsPlan(header, lower, plan, studentIdx)
  {
    hide Label;
    plan := [];
    studentIdx := -1;
    var totalTaken, remarkTaken := false, false;
    for i := 0 to |header|
      invariant |plan| == i && IsPlan(header[..i], lower, plan, studentIdx)
      invariant studentIdx >= 0 <==> TakenBefore(header, lower, {"student_id"}, i)
      invariant totalTaken <==> TakenBefore(header, lower, TOTAL_ALIASES, i)
      invariant remarkTaken <==> TakenBefore(header, lower, REMARK_ALIASES, i)
    {
      var title := Label(header[i]);
      var key := lower(title);
      assert key == KeyOf(header, lower, i);
      ghost var before := plan;
      ghost var idx := studentIdx;
      if key == "" {
        plan := plan + [Column(Ignore, "")];
      } else if key == "student_id" && studentIdx < 0 {
        studentIdx := i;
        plan := plan + [Column(StudentId, title)];
      } else if !totalTaken && key in TOTAL_ALIASES {
        totalTaken := true;
        plan := plan + [Column(Total, title)];
      } else if !remarkTaken && key in REMARK_ALIASES {
        remarkTaken := true;
        plan := plan + [Column(Remark, title)];
      } else {
        plan := plan + [Column(Item, title)];
      }
      RoleFrom(header, lower, i);
      PlanGrows(header, lower, before, idx, i, plan[i], studentIdx);
    }
    assert header[..|header|] == header;
  }

  // The role of the next column, from what was taken so far.
  lemma RoleFrom(header: seq<string>, lower: string -> string, i: nat)
    requires i < |header|
    ensures
      var key := KeyOf(header, lower, i);
      RoleOf(header, lower, i) ==
        if key == "" then Ignore
        else if key == "student_id" && !TakenBefore(header, lower, {"student_id"}, i) then StudentId
        else if !TakenBefore(header, lower, TOTAL_ALIASES, i) && key in TOTAL_ALIASES then Total
        else if !TakenBefore(header, lower, REMARK_ALIASES, i) && key in REMARK_ALIASES then Remark
        else Item
    ensures TakenBefore(header, lower, {"student_id"}, i + 1) <==>
              TakenBefore(header, lower, {"student_id"}, i) || KeyOf(header, lower, i) == "student_id"
    ensures TakenBefore(header, lower, TOTAL_ALIASES, i + 1) <==>
              TakenBefore(header, lower, TOTAL_ALIASES, i) || KeyOf(header, lower, i) in TOTAL_ALIASES
    ensures TakenBefore(header, lower, REMARK_ALIASES, i + 1) <==>
              TakenBefore(header, lower, REMARK_ALIASES, i) || KeyOf(header, lower, i) in REMARK_ALIASES
  {
    hide Label;
  }

  lemma PlanGrows(header: seq<string>, lower: string -> string, plan: seq<Column>, studentIdx: int, i: nat,
                  column: Column, studentIdx': int)
    requires i < |header| && IsPlan(header[..i], lower, plan, studentIdx)
    requires column == ColumnFor(header, lower, i)
    requires studentIdx' == if column.role == StudentId then i else studentIdx
    ensures IsPlan(header[..i + 1], lower, plan + [column], studentIdx')
  {
    hide Label;
    forall k | 0 <= k < i + 1 ensures RoleOf(header[..i + 1], lower, k) == RoleOf(header, lower, k) {
      RolesOfPrefix(header, lower, i + 1, k);
    }
    forall k | 0 <= k < i ensures RoleOf(header[..i], lower, k) == RoleOf(header, lower, k) {
      RolesOfPrefix(header, lower, i, k);
    }
  }

  lemma RolesOfPrefix(header: seq<string>, lower: string -> string, n: nat, k: nat)
    requires k < n <= |header|
    ensures RoleOf(header[..n], lower, k) == RoleOf(header, lower, k)
  {
    hide Label;
    assert forall j | 0 <= j <= k :: KeyOf(header[..n], lower, j) == KeyOf(header, lower, j);
  }

  // The header cell without white space at its ends and then without one leading byte order mark.
  function Heading(header: seq<string>, i: nat): string
    requires i < |header|
  {
    var s := TrimSpace(header[i]);
    if s != "" && s[0] == '\U{FEFF}' then s[1..] else s
  }

  // The name of a column is its heading in lower case.
  function Name(header: seq<string>, lower: string -> string, i: nat): string
    requires i < |header|
  {
    lower(Heading(header, i))
  }

  // No column before has one of the names.
  ghost predicate First(header: seq<string>, lower: string -> string, names: set<string>, i: nat)
    requires i < |header|
  {
    Name(header, lower, i) in names && forall j | 0 <= j < i :: Name(header, lower, j) !in names
  }

  /** Which column takes which role, by name: the English and the Chinese names of the total and of the
      remark are these; the first column of a kind takes it, a later one becomes an item. */
  lemma RolesMean(header: seq<string>, lower: string -> string, i: nat)
    requires i < |header|
    ensures
      var role, name := RoleOf(header, lower, i), Name(header, lower, i);
      && (role == Ignore <==> name == "")
      && (role == StudentId <==> First(header, lower, {"student_id"}, i))
      && (role == Total <==> name != "" && First(header, lower, {"total", "score", "grade", "总评", "总分", "成绩"}, i))
      && (role == Remark <==> name != "" && First(header, lower, {"remark", "note", "comment", "备注", "说明"}, i))
      && ColumnFor(header, lower, i) == Column(role, if name == "" then "" else Heading(header, i))
  {
    hide TrimSpace;
    SameNames(header, lower, i);
    assert TOTAL_ALIASES == {"total", "score", "grade", "总评", "总分", "成绩"};
    assert REMARK_ALIASES == {"remark", "note", "comment", "备注", "说明"};
    assert TOTAL_ALIASES !! REMARK_ALIASES && "student_id" !in TOTAL_ALIASES && "student_id" !in REMARK_ALIASES by {
      AliasesApart();
    }
  }

  lemma AliasesApart()
    ensures TOTAL_ALIASES !! REMARK_ALIASES && "student_id" !in TOTAL_ALIASES && "student_id" !in REMARK_ALIASES
  {}

  lemma SameNames(header: seq<string>, lower: string -> string, i: nat)
    requires i < |header|
    ensures forall j | 0 <= j <= i :: KeyOf(header, lower, j) == Name(header, lower, j)
    ensures Label(header[i]) == Heading(header, i)
  {
    hide TrimSpace;
  }

  /** A plan has at most one column for the student id, the total and the remark each. */
  lemma OneColumnOfAKind(header: seq<string>, lower: string -> string, i: nat, j: nat)
    requires i < j < |header| && RoleOf(header, lower, i) == RoleOf(header, lower, j)
    ensures RoleOf(header, lower, i) == Ignore || RoleOf(header, lower, i) == Item
  {
    hide Label;
  }

  // ----- one record

  datatype GradeItem = GradeItem(title: string, value: string)

  datatype Params = Params(student: string, total: string, remark: string, items: seq<GradeItem>)

  function Cell(record: seq<string>, i: int): string {
    if 0 <= i < |record| then TrimSpace(record[i]) else ""
  }

  // The items of the first n columns, in header order.
  function ItemsOf(plan: seq<Column>, record: seq<string>, n: nat): seq<GradeItem>
    requires n <= |plan|
  {
    if n == 0 then []
    else if plan[n - 1].role == Item && Cell(record, n - 1) != ""
    then ItemsOf(plan, record, n - 1) + [GradeItem(plan[n - 1].title, Cell(record, n - 1))]
    else ItemsOf(plan, record, n - 1)
  }

  // The cell of the last column with the role; a plan has at most one.
  function CellOf(plan: seq<Column>, record: seq<string>, role: Role, n: nat): string
    requires n <= |plan|
  {
    if n == 0 then "" else if plan[n - 1].role == role then Cell(record, n - 1) else CellOf(plan, record, role, n - 1)
  }

  function ParamsOf(plan: seq<Column>, studentIdx: int, record: seq<string>): Option<Params> {
    if Cell(record, studentIdx) == "" then None
    else Some(Params(Cell(record, studentIdx), CellOf(plan, record, Total, |plan|),
                     CellOf(plan, record, Remark, |plan|), ItemsOf(plan, record, |plan|)))
  }

  method BuildGradeParams(plan: seq<Column>, studentIdx: int, record: seq<string>) returns (r: Option<Params>)
    ensures r == ParamsOf(plan, studentIdx, record)
  {
    hide TrimSpace;
    var student := Cell(record, studentIdx);
    if student == "" {
      return None;
    }
    var total, remark := "", "";
    var items: seq<GradeItem> := [];
    for i := 0 to |plan|
      invariant total == CellOf(plan, record, Total, i) && remark == CellOf(plan, record, Remark, i)
      invariant items == ItemsOf(plan, record, i)
    {
      var value := Cell(record, i);
      match plan[i].role
      case Total => total := value;
      case Remark => remark := value;
      case Item => if value != "" { items := items + [GradeItem(plan[i].title, value)]; }
      case _ =>
    }
    return Some(Params(student, total, remark, items));
  }

  // Non-blank cells under a named header among the first n columns.
  function FilledCells(plan: seq<Column>, record: seq<string>, n: nat): nat
    requires n <= |plan|
  {
    if n == 0 then 0
    else FilledCells(plan, record, n - 1) + if plan[n - 1].role != Ignore && Cell(record, n - 1) != "" then 1 else 0
  }

  // At most one column each for student id, total and remark.
  ghost predicate SingleRoles(plan: seq<Column>) {
    forall i, j | 0 <= i < j < |plan| && plan[i].role == plan[j].role :: plan[i].role == Ignore || plan[i].role == Item
  }

  function Filled(s: string): nat { if s == "" then 0 else 1 }

  lemma {:induction false} CellsCounted(plan: seq<Column>, record: seq<string>, n: nat)
    requires SingleRoles(plan) && n <= |plan|
    ensures FilledCells(plan, record, n) ==
            Filled(CellOf(plan, record, StudentId, n)) + Filled(CellOf(plan, record, Total, n))
            + Filled(CellOf(plan, record, Remark, n)) + |ItemsOf(plan, record, n)|
  {
    hide TrimSpace;
    if n > 0 {
      CellsCounted(plan, record, n - 1);
      var role := plan[n - 1].role;
      if role != Ignore && role != Item {
        NoneBefore(plan, record, role, n - 1);
      }
    }
  }

  lemma {:induction false} NoneBefore(plan: seq<Column>, record: seq<string>, role: Role, n: nat)
    requires n <= |plan| && forall i | 0 <= i < n :: plan[i].role != role
    ensures CellOf(plan, record, role, n) == ""
  {
    if n > 0 {
      NoneBefore(plan, record, role, n - 1);
    }
  }

  lemma {:induction false} CellAt(plan: seq<Column>, record: seq<string>, i: nat, n: nat)
    requires SingleRoles(plan) && i < n <= |plan| && plan[i].role != Ignore && plan[i].role != Item
    ensures CellOf(plan, record, plan[i].role, n) == Cell(record, i)
  {
    hide TrimSpace;
    if i < n - 1 {
      CellAt(plan, record, i, n - 1);
    }
  }

  lemma {:induction false} ItemAt(plan: seq<Column>, record: seq<string>, i: nat, n: nat)
    requires i < n <= |plan| && plan[i].role == Item && Cell(record, i) != ""
    ensures |ItemsOf(plan, record, i)| < |ItemsOf(plan, record, n)|
    ensures ItemsOf(plan, record, n)[|ItemsOf(plan, record, i)|] == GradeItem(plan[i].title, Cell(record, i))
  {
    hide TrimSpace;
    if i < n - 1 {
      ItemAt(plan, record, i, n - 1);
    }
  }

  /** Cells are conserved: under a plan every non-blank cell of a named column of an imported record
      has a place of its own, the student id, the total, the remark, or, in header order, the item
      at the position of that column among the filled item columns; and there are no other places. */
  lemma CellsConserved(header: seq<string>, lower: string -> string, plan: seq<Column>, studentIdx: int,
                       record: seq<string>, i: nat)
    requires IsPlan(header, lower, plan, studentIdx) && ParamsOf(plan, studentIdx, record).Some? && i < |plan|
    ensures
      var p := ParamsOf(plan, studentIdx, record).value;
      && (plan[i].role == StudentId ==> p.student == Cell(record, i))
      && (plan[i].role == Total ==> p.total == Cell(record, i))
      && (plan[i].role == Remark ==> p.remark == Cell(record, i))
      && (plan[i].role == Item && Cell(record, i) != "" ==>
            && |ItemsOf(plan, record, i)| < |p.items|
            && p.items[|ItemsOf(plan, record, i)|] == GradeItem(plan[i].title, Cell(record, i)))
      && FilledCells(plan, record, |plan|) == 1 + Filled(p.total) + Filled(p.remark) + |p.items|
  {
    hide TrimSpace, Label;
    PlanHasSingleRoles(header, lower, plan, studentIdx);
    CellsCounted(plan, record, |plan|);
    CellAt(plan, record, studentIdx, |plan|);
    if plan[i].role == Item && Cell(record, i) != "" {
      ItemAt(plan, record, i, |plan|);
    } else if plan[i].role != Ignore && plan[i].role != Item {
      CellAt(plan, record, i, |plan|);
    }
  }

  lemma PlanHasSingleRoles(header: seq<string>, lower: string -> string, plan: seq<Column>, studentIdx: int)
    requires IsPlan(header, lower, plan, studentIdx)
    ensures SingleRoles(plan)
  {
    hide Label, RoleOf;
    forall i, j | 0 <= i < j < |plan| && plan[i].role == plan[j].role
      ensures plan[i].role == Ignore || plan[i].role == Item
    {
      OneColumnOfAKind(header, lower, i, j);
    }
  }

  // ----- the table

  datatype GradeKey = GradeKey(lab: string, student: string)

  // An empty total or remark is stored as null.
  datatype Grade = Grade(total: Option<string>, remark: Option<string>, items: seq<GradeItem>,
                         published: Option<Time>, updated: Time)

  type GradeTable = map<GradeKey, Grade>

  function OptionalText(s: string): Option<string> { if s == "" then None else Some(s) }

  // UpsertFinalGrade: an existing row keeps its publication.
  function Upserted(t: GradeTable, lab: string, p: Params, now: Time): GradeTable {
    var k := GradeKey(lab, p.student);
    t[k := Grade(OptionalText(p.total), OptionalText(p.remark), p.items, if k in t then t[k].published else None, now)]
  }

  // The cell without white space at its ends; a record that is too short has blank cells.
  function Trimmed(record: seq<string>, i: nat): string { if i < |record| then TrimSpace(record[i]) else "" }

  /** What a record stores under a plan: nothing if the cell of the student id is blank, or else that id,
      the cells of the total and of the remark, and for each other named column that is filled one
      item, in header order. */
  lemma StoredMeans(header: seq<string>, lower: string -> string, plan: seq<Column>, studentIdx: nat,
                    record: seq<string>)
    requires IsPlan(header, lower, plan, studentIdx)
    ensures Stored(plan, studentIdx, record).Some? <==> Trimmed(record, studentIdx) != ""
    ensures Stored(plan, studentIdx, record).Some? ==>
              var p := Stored(plan, studentIdx, record).value;
              && p.student == Trimmed(record, studentIdx)
              && (forall i | 0 <= i < |plan| && plan[i].role == Total :: p.total == Trimmed(record, i))
              && (forall i | 0 <= i < |plan| && plan[i].role == Remark :: p.remark == Trimmed(record, i))
              && ((forall i | 0 <= i < |plan| :: plan[i].role != Total) ==> p.total == "")
              && ((forall i | 0 <= i < |plan| :: plan[i].role != Remark) ==> p.remark == "")
              && p.items == FilledItems(plan, record, |plan|)
  {
    hide TrimSpace, Label;
    if Stored(plan, studentIdx, record).Some? {
      PlanHasSingleRoles(header, lower, plan, studentIdx);
      forall i | 0 <= i < |plan| && (plan[i].role == Total || plan[i].role == Remark)
        ensures CellOf(plan, record, plan[i].role, |plan|) == Trimmed(record, i)
      {
        CellAt(plan, record, i, |plan|);
      }
      if forall i | 0 <= i < |plan| :: plan[i].role != Total {
        NoneBefore(plan, record, Total, |plan|);
      }
      if forall i | 0 <= i < |plan| :: plan[i].role != Remark {
        NoneBefore(plan, record, Remark, |plan|);
      }
      ItemsFilled(plan, record, |plan|);
    }
  }

  // The items by their columns.
  function FilledItems(plan: seq<Column>, record: seq<string>, n: nat): seq<GradeItem>
    requires n <= |plan|
  {
    if n == 0 then []
    else FilledItems(plan, record, n - 1)
         + if plan[n - 1].role == Item && Trimmed(record, n - 1) != ""
           then [GradeItem(plan[n - 1].title, Trimmed(record, n - 1))] else []
  }

  lemma {:induction false} ItemsFilled(plan: seq<Column>, record: seq<string>, n: nat)
    requires n <= |plan|
    ensures ItemsOf(plan, record, n) == FilledItems(plan, record, n)
  {
    hide TrimSpace;
    if n > 0 {
      ItemsFilled(plan, record, n - 1);
    }
  }

  predicate IsBlankRecord(record: seq<string>) {
    forall i | 0 <= i < |record| :: TrimSpace(record[i]) == ""
  }

  // What a record stores, if anything.
  function Stored(plan: seq<Column>, studentIdx: int, record: seq<string>): Option<Params> {
    if IsBlankRecord(record) then None else ParamsOf(plan, studentIdx, record)
  }

  // The table after the records, the i-th served at times[i].
  function Imported(t: GradeTable, lab: string, plan: seq<Column>, studentIdx: int, records: seq<seq<string>>,
                    times: nat -> Time): GradeTable
  {
    if records == [] then t
    else
      var before := Imported(t, lab, plan, studentIdx, records[..|records| - 1], times);
      var p := Stored(plan, studentIdx, records[|records| - 1]);
      if p.Some? then Upserted(before, lab, p.value, times(|records| - 1)) else before
  }

  datatype ImportError = InvalidLab | EmptyCsv | Unreadable | NoStudentColumn | StatementFailed

  // What the CSV reader yields: records up to the end or up to a malformed one.
  datatype Input = Input(header: Result<seq<string>, ImportError>, records: seq<seq<string>>, malformed: bool)

  // The records that have been stored when the import stops with an error.
  ghost predicate StoppedAfter(t: GradeTable, t': GradeTable, lab: string, plan: seq<Column>, studentIdx: int,
                               input: Input, times: nat -> Time)
  {
    exists n :: 0 <= n <= |input.records| && t' == Imported(t, lab, plan, studentIdx, input.records[..n], times)
  }

  // The plan an import works with.
  ghost predicate PlanOf(input: Input, lower: string -> string, plan: seq<Column>, studentIdx: int) {
    input.header.Ok? && IsPlan(input.header.value, lower, plan, studentIdx) && studentIdx >= 0
  }

  class GradeService {
    var grades: GradeTable

    /** ImportGrades.  Every upsert is a statement of its own: an import that fails half-way, at a
        malformed record or a failing statement, keeps what it stored.  faults are the positions of
        records whose upsert fails. */
    method ImportGrades(labId: string, input: Input, lower: string -> string, times: nat -> Time, faults: set<nat>)
      returns (r: Result<nat, ImportError>, ghost plan: seq<Column>, ghost studentIdx: int)
      modifies this
      ensures r.Ok? ==>
                && TrimSpace(labId) != "" && PlanOf(input, lower, plan, studentIdx) && !input.malformed
                && grades == Imported(old(grades), TrimSpace(labId), plan, studentIdx, input.records, times)
                && r.value == |StoredRecords(plan, studentIdx, input.records, |input.records|)|
      ensures r.Err? && grades != old(grades) ==>
                && PlanOf(input, lower, plan, studentIdx)
                && StoppedAfter(old(grades), grades, TrimSpace(labId), plan, studentIdx, input, times)
      ensures faults == {} ==>
                (r.Ok? <==> TrimSpace(labId) != "" && input.header.Ok? && !input.malformed
                            && HasKey(input.header.value, lower, "student_id"))
    {
      hide TrimSpace, Label, KeyOf, Imported, Stored;
      plan, studentIdx := [], -1;
      var lab := TrimSpace(labId);
      if lab == "" {
        return Err(InvalidLab), plan, studentIdx;
      }
      if input.header.Err? {
        return Err(input.header.error), plan, studentIdx;
      }
      var columns, idx := PlanColumns(input.header.value, lower);
      plan, studentIdx := columns, idx;
      HasStudentColumn(input.header.value, lower, columns, idx);
      if idx < 0 {
        return Err(NoStudentColumn), plan, studentIdx;
      }
      var imported, failed := StoreRecords(lab, columns, idx, input.records, times, faults);
      assert input.records[..|input.records|] == input.records;
      if failed {
        return Err(StatementFailed), plan, studentIdx;
      }
      if input.malformed {
        return Err(Unreadable), plan, studentIdx;
      }
      return Ok(imported), plan, studentIdx;
    }

    // The loop of ImportGrades, up to the first failing statement.
    method StoreRecords(lab: string, plan: seq<Column>, studentIdx: int, records: seq<seq<string>>, times: nat -> Time,
                        faults: set<nat>)
      returns (imported: nat, failed: bool)
      modifies this
      ensures !failed ==> grades == Imported(old(grades), lab, plan, studentIdx, records, times)
      ensures !failed ==> imported == |StoredRecords(plan, studentIdx, records, |records|)|
      ensures failed ==> faults != {}
      ensures failed ==>
                exists n ::
                  0 <= n <= |records| && grades == Imported(old(grades), lab, plan, studentIdx, records[..n], times)
    {
      hide Stored, ParamsOf;
      imported := 0;
      for i := 0 to |records|
        invariant grades == Imported(old(grades), lab, plan, studentIdx, records[..i], times)
        invariant imported == |StoredRecords(plan, studentIdx, records, i)|
      {
        var record := records[i];
        assert records[..i + 1][..i] == records[..i] && records[..i + 1][i] == record;
        OneMoreStored(plan, studentIdx, records, i);
        var params := ReadRecord(plan, studentIdx, record);
        if params.None? {
          continue;
        }
        if i in faults {
          return imported, true;
        }
        grades := Upserted(grades, lab, params.value, times(i));
        imported := imported + 1;
      }
      assert records[..|records|] == records;
      return imported, false;
    }

    method PublishGrades(labId: string, now: Time) returns (r: Result<nat, ImportError>)
      modifies this
      ensures TrimSpace(labId) == "" ==> r == Err(InvalidLab) && grades == old(grades)
      ensures TrimSpace(labId) != "" ==>
                && grades == Published(old(grades), TrimSpace(labId), now)
                && grades.Keys == old(grades).Keys
                && (forall k | k in grades ::
                      grades[k] == if k.lab == TrimSpace(labId) && old(grades)[k].published == None
                                   then old(grades)[k].(published := Some(now), updated := now) else old(grades)[k])
                && r == Ok(|set k | k in old(grades) && k.lab == TrimSpace(labId) && old(grades)[k].published.None?|)
    {
      hide TrimSpace;
      var lab := TrimSpace(labId);
      if lab == "" {
        return Err(InvalidLab);
      }
      var rows := set k | k in grades && k.lab == lab && grades[k].published.None?;
      grades := Published(grades, lab, now);
      return Ok(|rows|);
    }

    method DeleteGrades(labId: string) returns (r: Result<nat, ImportError>)
      modifies this
      ensures TrimSpace(labId) == "" ==> r == Err(InvalidLab) && grades == old(grades)
      ensures TrimSpace(labId) != "" ==>
                && grades == (map k | k in old(grades) && k.lab != TrimSpace(labId) :: old(grades)[k])
                && r == Ok(|set k | k in old(grades) && k.lab == TrimSpace(labId)|)
    {
      hide TrimSpace;
      var lab := TrimSpace(labId);
      if lab == "" {
        return Err(InvalidLab);
      }
      var rows := set k | k in grades && k.lab == lab;
      grades := map k | k in grades && k.lab != lab :: grades[k];
      return Ok(|rows|);
    }
  }

  // The positions of the records that store something.
  function StoredRecords(plan: seq<Column>, studentIdx: int, records: seq<seq<string>>, n: nat): set<nat>
    requires n <= |records|
  {
    set i: nat | i < n && Stored(plan, studentIdx, records[i]).Some?
  }

  lemma OneMoreStored(plan: seq<Column>, studentIdx: int, records: seq<seq<string>>, n: nat)
    requires n < |records|
    ensures |StoredRecords(plan, studentIdx, records, n + 1)| ==
            |StoredRecords(plan, studentIdx, records, n)| + if Stored(plan, studentIdx, records[n]).Some? then 1 else 0
  {
    hide Stored;
    var before, after := StoredRecords(plan, studentIdx, records, n), StoredRecords(plan, studentIdx, records, n + 1);
    if Stored(plan, studentIdx, records[n]).Some? {
      assert after == before + {n};
    } else {
      assert after == before;
    }
  }

  method ReadRecord(plan: seq<Column>, studentIdx: int, record: seq<string>) returns (r: Option<Params>)
    ensures r == Stored(plan, studentIdx, record)
  {
    hide TrimSpace;
    var blank := BlankRecord(record);
    if blank {
      return None;
    }
    r := BuildGradeParams(plan, studentIdx, record);
  }

  method BlankRecord(record: seq<string>) returns (blank: bool)
    ensures blank == IsBlankRecord(record)
  {
    hide TrimSpace;
    for i := 0 to |record|
      invariant forall k | 0 <= k < i :: TrimSpace(record[k]) == ""
    {
      if TrimSpace(record[i]) != "" {
        return false;
      }
    }
    return true;
  }

  lemma HasStudentColumn(header: seq<string>, lower: string -> string, plan: seq<Column>, studentIdx: int)
    requires IsPlan(header, lower, plan, studentIdx)
    ensures studentIdx >= 0 <==> HasKey(header, lower, "student_id")
  {
    hide Label;
    if i: nat :| i < |header| && KeyOf(header, lower, i) == "student_id" {
      FirstStudentColumn(header, lower, i);
      var j :| 0 <= j < |header| && RoleOf(header, lower, j) == StudentId;
      assert plan[j] == ColumnFor(header, lower, j);
    }
  }

  lemma {:induction false} FirstStudentColumn(header: seq<string>, lower: string -> string, i: nat)
    requires i < |header| && KeyOf(header, lower, i) == "student_id"
    ensures exists j :: 0 <= j < |header| && RoleOf(header, lower, j) == StudentId
  {
    hide Label;
    if j: nat :| j < i && KeyOf(header, lower, j) == "student_id" {
      FirstStudentColumn(header, lower, j);
    } else {
      assert RoleOf(header, lower, i) == StudentId;
    }
  }

  // ----- what an import leaves behind

  predicate StoresFor(plan: seq<Column>, studentIdx: int, record: seq<string>, student: string) {
    Stored(plan, studentIdx, record).Some? && Stored(plan, studentIdx, record).value.student == student
  }

  // The last record for the student among the first n.
  function LastFor(plan: seq<Column>, studentIdx: int, records: seq<seq<string>>, student: string, n: nat): int
    requires n <= |records|
  {
    if n == 0 then -1
    else if StoresFor(plan, studentIdx, records[n - 1], student) then n - 1
    else LastFor(plan, studentIdx, records, student, n - 1)
  }

  // A row without its time stamp, and without its publication.
  function Content(g: Grade): (Option<string>, Option<string>, seq<GradeItem>) { (g.total, g.remark, g.items) }

  function ContentOf(p: Params): (Option<string>, Option<string>, seq<GradeItem>) {
    (OptionalText(p.total), OptionalText(p.remark), p.items)
  }

  /** The last record of a student wins; students the file does not name, and other labs, keep their
      rows; and no import alters whether a grade is published. */
  lemma {:induction false} LastRecordWins(t: GradeTable, lab: string, plan: seq<Column>, studentIdx: int,
                                          records: seq<seq<string>>, times: nat -> Time, k: GradeKey)
    ensures
      var t' := Imported(t, lab, plan, studentIdx, records, times);
      var last := LastFor(plan, studentIdx, records, k.student, |records|);
      && last < |records| && (last >= 0 ==> StoresFor(plan, studentIdx, records[last], k.student))
      && (if k.lab == lab && last >= 0 then
            && k in t' && Content(t'[k]) == ContentOf(Stored(plan, studentIdx, records[last]).value)
            && var p := Stored(plan, studentIdx, records[last]).value;
               t'[k] == Grade(if p.total == "" then None else Some(p.total),
                              if p.remark == "" then None else Some(p.remark), p.items,
                              if k in t then t[k].published else None, times(last))
          else (k in t' <==> k in t) && (k in t ==> t'[k] == t[k]))
  {
    hide Stored;
    if records != [] {
      var init := records[..|records| - 1];
      LastRecordWins(t, lab, plan, studentIdx, init, times, k);
      LastForPrefix(plan, studentIdx, records, k.student, |records| - 1);
    }
  }

  lemma {:induction false} LastForPrefix(plan: seq<Column>, studentIdx: int, records: seq<seq<string>>,
                                         student: string, n: nat)
    requires n < |records|
    ensures LastFor(plan, studentIdx, records[..|records| - 1], student, n)
         == LastFor(plan, studentIdx, records, student, n)
  {
    hide Stored;
    if n > 0 {
      LastForPrefix(plan, studentIdx, records, student, n - 1);
    }
  }

  /** Importing the same file twice stores what importing it once stored, for the same students and
      with the same publication, whatever the table held before. */
  lemma ImportIsIdempotent(t: GradeTable, lab: string, plan: seq<Column>, studentIdx: int, records: seq<seq<string>>,
                           times: nat -> Time, times': nat -> Time)
    ensures
      var once := Imported(t, lab, plan, studentIdx, records, times);
      var twice := Imported(once, lab, plan, studentIdx, records, times');
      && twice.Keys == once.Keys
      && forall k | k in once :: Content(twice[k]) == Content(once[k]) && twice[k].published == once[k].published
  {
    hide Imported, LastFor, Content, ContentOf, Stored, StoresFor;
    var once := Imported(t, lab, plan, studentIdx, records, times);
    var twice := Imported(once, lab, plan, studentIdx, records, times');
    forall k ensures (k in twice <==> k in once)
                     && (k in once ==> Content(twice[k]) == Content(once[k]) && twice[k].published == once[k].published)
    {
      LastRecordWins(t, lab, plan, studentIdx, records, times, k);
      LastRecordWins(once, lab, plan, studentIdx, records, times', k);
    }
  }

  // ----- publication

  function Published(t: GradeTable, lab: string, now: Time): GradeTable {
    map k | k in t ::
      if k.lab == lab && t[k].published.None? then t[k].(published := Some(now), updated := now) else t[k]
  }

  // GetFinalGrade finds a row only if this holds.
  predicate Visible(t: GradeTable, k: GradeKey, now: Time) {
    k in t && t[k].published.Some? && t[k].published.value <= now
  }

  /** An import alone shows a student nothing new: a grade is visible afterwards exactly if it was
      visible before, then with the newly imported content; publishing shows every stored grade of
      the lab from that moment on and hides none. */
  lemma ImportThenPublish(t: GradeTable, lab: string, plan: seq<Column>, studentIdx: int, records: seq<seq<string>>,
                          times: nat -> Time, k: GradeKey, at: Time, now: Time)
    ensures
      var t' := Imported(t, lab, plan, studentIdx, records, times);
      && (Visible(t', k, now) <==> Visible(t, k, now))
      && (Visible(Published(t', lab, at), k, now) <==>
           Visible(t', k, now) || (k.lab == lab && k in t' && t'[k].published.None? && at <= now))
      && (k in t' ==> Content(Published(t', lab, at)[k]) == Content(t'[k]))
  {
    hide Imported, LastFor, ContentOf, Stored, StoresFor;
    LastRecordWins(t, lab, plan, studentIdx, records, times, k);
  }
}
