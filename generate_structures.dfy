/**
 * The row cascade of the structure-generation script: for every row of the
 * dataset whose CIF path is missing, empty or names no existing file, try the
 * substitution predictor, then a prototype chosen from the formula's last
 * character, then the fallback cell; write the first structure obtained to
 * `data/processed/structures/<formula><suffix>.cif` and point the row at it.
 *
 * The dataset file and the file system are the fields of `Workspace`; the
 * script's loop is the method `GenerateStructures`, proved equal to the
 * function `GenerateFrom`.
 */
module GenerateStructures {
  import opened Basics
  import opened Crystal
  import opened Paths
  import opened StructureUtils

  const CifDir: string := "data/processed/structures"

  /** A `cif_path` cell: NaN (or no such column) or a string. */
  datatype CifCell = Missing | Text(path: string)

  datatype Row = Row(formula: string, cif: CifCell)

  /** `pd.isna(cif_path) or not cif_path or not os.path.exists(str(cif_path))`. */
  predicate NeedsStructure(cell: CifCell, files: set<string>) {
    cell.Missing? || cell.path == "" || cell.path !in files
  }

  datatype Stage = Substituted | Prototyped | FellBack

  /** The file-name suffix that names the stage. */
  function Suffix(stage: Stage): string {
    match stage
    case Substituted => "_sub"
    case Prototyped => "_proto"
    case FellBack => "_fallback"
  }

  function OutPath(formula: string, stage: Stage): (path: string)
    ensures path != []
  {
    Join(CifDir, formula + Suffix(stage) + ".cif")
  }

  predicate IsDigit(c: char) {
    '0' <= c <= '9'
  }

  /** `int(formula[-1])` when the last character is a digit, else 1. */
  function LastDigit(formula: string): int
    requires formula != []
  {
    var c := formula[|formula| - 1];
    if IsDigit(c) then c as int - '0' as int else 1
  }

  function PrototypeFor(formula: string): string
    requires formula != []
  {
    if LastDigit(formula) == 2 then "ABX2" else "AB3"
  }

  /**
   * What the loop body does with a row that needs a structure: write the first
   * truthy structure of the three stages, leave the row alone when none is
   * truthy, or abort the script (`formula[-1]` on an empty formula raises).
   */
  datatype Plan = Write(stage: Stage, structure: Structure) | Unchanged | Abort

  /** A substitution predictor: `predict_structure_by_substitution`, or any other. */
  type Predictor = string -> Option<Structure>

  function PlanFor(predict: Predictor, formula: string): Plan {
    var sub := predict(formula);
    if sub.Some? && HasSites(sub.value) then Write(Substituted, sub.value)
    else if formula == [] then Abort
    else
      var proto := GeneratePrototypical(formula, PrototypeFor(formula));
      if proto.Some? && HasSites(proto.value) then Write(Prototyped, proto.value)
      else
        var fallback := GenerateFallbackStructure(formula);
        if HasSites(fallback) then Write(FellBack, fallback) else Unchanged
  }

  /** The plan of every formula, for the loop to consult. */
  type Planner = string -> Plan

  function PlannerOf(predict: Predictor): Planner {
    (formula: string) => PlanFor(predict, formula)
  }

  /** The prototype is ABX2 exactly when the formula ends in '2', and AB3 otherwise. */
  lemma PrototypeChoice(formula: string)
    requires formula != []
    ensures PrototypeFor(formula) == "ABX2" <==> formula[|formula| - 1] == '2'
    ensures PrototypeFor(formula) == "AB3" <==> formula[|formula| - 1] != '2'
  {
  }

  /**
   * The stages run in order and the first truthy result wins: a truthy
   * prediction is written as `_sub`; otherwise an empty formula aborts, a
   * formula with an uppercase letter gets its prototype as `_proto`, and only a
   * formula without one reaches the fallback, written as `_fallback`.
   */
  lemma PlanStages(predict: Predictor, formula: string)
    ensures var sub := predict(formula);
            sub.Some? && HasSites(sub.value) ==> PlanFor(predict, formula) == Write(Substituted, sub.value)
    ensures !(predict(formula).Some? && HasSites(predict(formula).value)) ==>
              && (PlanFor(predict, formula) == Abort <==> formula == [])
              && (formula != [] ==> PlanFor(predict, formula).Write?)
              && (formula != [] ==>
                    (PlanFor(predict, formula).stage == FellBack <==> Uppers(formula) == []))
              && (formula != [] && Uppers(formula) != [] ==>
                    PlanFor(predict, formula) == Write(Prototyped, GeneratePrototypical(formula, PrototypeFor(formula)).value))
  {
    if formula != [] {
      PrototypeShapes(formula, PrototypeFor(formula));
      FallbackIgnoresFormula(formula, formula);
    }
  }

  /** With the placeholder predictor, substitution never wins; every non-empty formula is written. */
  lemma ScriptPlans(formula: string)
    ensures PlanFor(PredictBySubstitution, formula) == Abort <==> formula == []
    ensures formula != [] ==> PlanFor(PredictBySubstitution, formula).Write?
    ensures PlanFor(PredictBySubstitution, formula).Write? ==>
              && PlanFor(PredictBySubstitution, formula).stage != Substituted
              && (PlanFor(PredictBySubstitution, formula).stage == FellBack <==> Uppers(formula) == [])
  {
    PlanStages(PredictBySubstitution, formula);
  }

  /** What a run of the loop produces: the table, the existing files, the CIFs written and whether it finished. */
  datatype Generated = Generated(table: seq<Row>, files: set<string>, written: seq<(string, Structure)>, completed: bool)

  /** The loop of `main` from row `k` on. */
  function GenerateFrom(plan: Planner, table: seq<Row>, files: set<string>, k: nat): Generated
    decreases |table| - k
  {
    if k >= |table| then Generated(table, files, [], true)
    else if !NeedsStructure(table[k].cif, files) then GenerateFrom(plan, table, files, k + 1)
    else
      match plan(table[k].formula)
      case Abort => Generated(table, files, [], false)
      case Unchanged => GenerateFrom(plan, table, files, k + 1)
      case Write(stage, s) =>
        var path := OutPath(table[k].formula, stage);
        var g := GenerateFrom(plan, table[k := table[k].(cif := Text(path))], files + {path}, k + 1);
        g.(written := [(path, s)] + g.written)
  }

  /** Row `k` after it was written to `path`. */
  function Point(table: seq<Row>, k: nat, path: string): seq<Row>
    requires k < |table|
  {
    table[k := table[k].(cif := Text(path))]
  }

  /**
   * The loop keeps the rows and their formulas, changes no row before `k`,
   * never removes a file, and keeps the path of every row that did not need a
   * structure when the loop started.
   */
  lemma {:induction false} GenerateKeepsRows(plan: Planner, table: seq<Row>, files: set<string>, k: nat)
    ensures var g := GenerateFrom(plan, table, files, k);
            && |g.table| == |table|
            && (forall j :: 0 <= j < |table| ==> g.table[j].formula == table[j].formula)
            && (forall j :: 0 <= j < |table| && j < k ==> g.table[j] == table[j])
            && (forall j :: 0 <= j < |table| && !NeedsStructure(table[j].cif, files) ==> g.table[j] == table[j])
            && files <= g.files
    decreases |table| - k
  {
    if k < |table| {
      if NeedsStructure(table[k].cif, files) && plan(table[k].formula).Write? {
        var path := OutPath(table[k].formula, plan(table[k].formula).stage);
        var t1 := Point(table, k, path);
        GenerateKeepsRows(plan, t1, files + {path}, k + 1);
        assert GenerateFrom(plan, table, files, k).table == GenerateFrom(plan, t1, files + {path}, k + 1).table;
      } else if !NeedsStructure(table[k].cif, files) || plan(table[k].formula).Unchanged? {
        GenerateKeepsRows(plan, table, files, k + 1);
      }
    }
  }

  /**
   * A run whose plans write every non-empty formula (and at most abort on an
   * empty one) finishes whenever no
   * formula from row `k` on is empty, and a finished run leaves every row from
   * `k` on pointing at a file that exists.
   */
  lemma {:induction false} GenerateCompletes(plan: Planner, table: seq<Row>, files: set<string>, k: nat)
    requires forall f :: plan(f).Write? || (f == [] && plan(f).Abort?)
    ensures var g := GenerateFrom(plan, table, files, k);
            && ((forall j :: k <= j < |table| ==> table[j].formula != []) ==> g.completed)
            && (g.completed ==>
                  |g.table| == |table| && forall j :: k <= j < |table| ==> !NeedsStructure(g.table[j].cif, g.files))
    decreases |table| - k
  {
    if k < |table| {
      if !NeedsStructure(table[k].cif, files) {
        GenerateCompletes(plan, table, files, k + 1);
        GenerateKeepsRows(plan, table, files, k + 1);
      } else if plan(table[k].formula).Write? {
        var path := OutPath(table[k].formula, plan(table[k].formula).stage);
        var t1 := Point(table, k, path);
        GenerateCompletes(plan, t1, files + {path}, k + 1);
        GenerateKeepsRows(plan, t1, files + {path}, k + 1);
        assert forall j :: k < j < |table| ==> t1[j] == table[j];
        var g := GenerateFrom(plan, table, files, k);
        var g1 := GenerateFrom(plan, t1, files + {path}, k + 1);
        assert g.table == g1.table && g.files == g1.files && g.completed == g1.completed;
        assert g1.table[k] == t1[k] && path in g1.files;
      }
    }
  }

  /**
   * Every CIF written is the structure planned for some row's formula, at the
   * path whose suffix names the stage that produced it, and is a file that
   * exists afterwards.
   */
  lemma {:induction false} GenerateWritesPlans(plan: Planner, table: seq<Row>, files: set<string>, k: nat)
    ensures var g := GenerateFrom(plan, table, files, k);
            forall w :: w in g.written ==>
              && w.0 in g.files
              && exists j :: k <= j < |table| && plan(table[j].formula).Write?
                             && w.1 == plan(table[j].formula).structure
                             && w.0 == OutPath(table[j].formula, plan(table[j].formula).stage)
    decreases |table| - k
  {
    if k < |table| {
      if !NeedsStructure(table[k].cif, files) || plan(table[k].formula).Unchanged? {
        GenerateWritesPlans(plan, table, files, k + 1);
      } else if plan(table[k].formula).Write? {
        var path := OutPath(table[k].formula, plan(table[k].formula).stage);
        var t1 := Point(table, k, path);
        GenerateWritesPlans(plan, t1, files + {path}, k + 1);
        GenerateKeepsRows(plan, t1, files + {path}, k + 1);
        assert forall j :: k < j < |table| ==> t1[j] == table[j];
      }
    }
  }

  /**
   * The script itself: it finishes unless a row that needs a structure has an
   * empty formula, and then every row points at an existing file; the rows that
   * already had one keep it.
   */
  lemma ScriptRegeneratesMissing(table: seq<Row>, files: set<string>)
    requires forall j :: 0 <= j < |table| ==> table[j].formula != []
    ensures var g := GenerateFrom(PlannerOf(PredictBySubstitution), table, files, 0);
            && g.completed && |g.table| == |table|
            && (forall j :: 0 <= j < |table| ==> !NeedsStructure(g.table[j].cif, g.files))
            && (forall j :: 0 <= j < |table| && !NeedsStructure(table[j].cif, files) ==> g.table[j] == table[j])
  {
    var plan := PlannerOf(PredictBySubstitution);
    forall f
      ensures plan(f).Write? || (f == [] && plan(f).Abort?)
    {
      ScriptPlans(f);
    }
    GenerateCompletes(plan, table, files, 0);
    GenerateKeepsRows(plan, table, files, 0);
  }

  /** The dataset file and the file system the script works on. */
  class Workspace {
    /** The substitution stage: `predict_structure_by_substitution` in the script. */
    const predict: Predictor
    /** `data/processed/enhanced_dataset.csv`. */
    var dataset: seq<Row>
    /** The paths that exist. */
    var files: set<string>
    /** The CIF files written, in order, with their structures. */
    var written: seq<(string, Structure)>

    constructor(predict: Predictor, dataset: seq<Row>, files: set<string>)
      ensures this.predict == predict && this.dataset == dataset && this.files == files && written == []
    {
      this.predict := predict;
      this.dataset := dataset;
      this.files := files;
      written := [];
    }

    /** `structure.to(fmt="cif", filename=path)`. */
    method WriteCif(path: string, s: Structure)
      modifies this
      ensures files == old(files) + {path} && written == old(written) + [(path, s)]
      ensures dataset == old(dataset)
    {
      files := files + {path};
      written := written + [(path, s)];
    }

    /**
     * The three stages of the loop body for a row that needs a structure:
     * substitution, then the prototype chosen by the last character (where an
     * empty formula raises), then the fallback cell; the first truthy one wins.
     */
    method PlanRow(formula: string) returns (plan: Plan)
      ensures plan == PlanFor(predict, formula)
    {
      var structure := predict(formula);
      if structure.Some? && HasSites(structure.value) {
        return Write(Substituted, structure.value);
      }
      if formula == [] {
        return Abort;
      }
      var prototype := PrototypeFor(formula);
      structure := GeneratePrototypical(formula, prototype);
      if structure.Some? && HasSites(structure.value) {
        return Write(Prototyped, structure.value);
      }
      var fallback := GenerateFallbackStructure(formula);
      plan := if HasSites(fallback) then Write(FellBack, fallback) else Unchanged;
    }

    /**
     * `main()`: read the dataset, regenerate the missing structures row by row
     * and save the dataset, unless an empty formula aborts the script first.
     */
    method GenerateStructures() returns (completed: bool)
      modifies this
      ensures var g := GenerateFrom(PlannerOf(predict), old(dataset), old(files), 0);
              && completed == g.completed
              && files == g.files
              && written == old(written) + g.written
              && dataset == (if completed then g.table else old(dataset))
    {
      var table := dataset;
      ghost var g0 := GenerateFrom(PlannerOf(predict), table, files, 0);
      var k := 0;
      while k < |table|
        invariant 0 <= k <= |table|
        invariant dataset == old(dataset)
        invariant var g := GenerateFrom(PlannerOf(predict), table, files, k);
                  && g.table == g0.table && g.files == g0.files && g.completed == g0.completed
                  && written + g.written == old(written) + g0.written
      {
        var row := table[k];
        if NeedsStructure(row.cif, files) {
          var plan := PlanRow(row.formula);
          match plan
          case Abort =>
            return false;
          case Unchanged =>
          case Write(stage, s) =>
            var path := OutPath(row.formula, stage);
            ghost var rest := GenerateFrom(PlannerOf(predict), table[k := row.(cif := Text(path))], files + {path}, k + 1);
            AppendAssoc(written, [(path, s)], rest.written);
            WriteCif(path, s);
            table := table[k := row.(cif := Text(path))];
        }
        k := k + 1;
      }
      dataset := table;
      return true;
    }
  }
}
