/**
 * What the pipeline does to the world, recorded instead of performed: calls to
 * the two external services, sleeps, file writes and checkpoints. A run's
 * behaviour is the sequence of these events.
 */
module Effects {
  import opened Basics
  import opened Crystal
  import opened Chemistry

  datatype Event =
    | QueryDatabase(formula: string)            // one Materials Project summary search
    | ConsultSubstitutor(composition: Composition) // one `Substitutor.pred_from_comp` call
    | Sleep(seconds: int)                       // `time.sleep`
    | WriteFile(path: string)                   // a CIF file written
    | SaveCheckpoint(keys: seq<string>)         // `processing_checkpoint.json` rewritten

  /** The answer of an external service: its best structure, nothing, or an exception. */
  datatype Reply = Found(structure: Structure) | NoResults | Failed(reason: string)

  /** `docs[0].structure if docs else None`, with exceptions caught as `None`. */
  function ReplyStructure(reply: Reply): Option<Structure> {
    if reply.Found? then Some(reply.structure) else None
  }

  /** The batch-level view of a trace: file writes, checkpoints and sleeps, in order. */
  datatype Mark = FileMark | CheckpointMark | SleepMark(seconds: int)

  /** The mark of one event, if it has one. */
  function MarkOf(e: Event): seq<Mark> {
    match e
    case WriteFile(_) => [FileMark]
    case SaveCheckpoint(_) => [CheckpointMark]
    case Sleep(t) => [SleepMark(t)]
    case _ => []
  }

  function Outline(es: seq<Event>): seq<Mark> {
    if es == [] then [] else MarkOf(es[0]) + Outline(es[1..])
  }

  /** A trace with service calls only: nothing written, nothing slept. */
  predicate Silent(es: seq<Event>) {
    Outline(es) == []
  }

  /** The paths written, in order. */
  function Files(es: seq<Event>): seq<string> {
    if es == [] then [] else FileOf(es[0]) + Files(es[1..])
  }

  function FileOf(e: Event): seq<string> {
    if e.WriteFile? then [e.path] else []
  }

  /** The sleeps requested, in order. */
  function Sleeps(es: seq<Event>): seq<int> {
    if es == [] then [] else SleepOf(es[0]) + Sleeps(es[1..])
  }

  function SleepOf(e: Event): seq<int> {
    if e.Sleep? then [e.seconds] else []
  }

  /** The key lists checkpointed, in order. */
  function Checkpoints(es: seq<Event>): seq<seq<string>> {
    if es == [] then [] else CheckpointOf(es[0]) + Checkpoints(es[1..])
  }

  function CheckpointOf(e: Event): seq<seq<string>> {
    if e.SaveCheckpoint? then [e.keys] else []
  }

  lemma {:induction false} OutlineAppend(a: seq<Event>, b: seq<Event>)
    ensures Outline(a + b) == Outline(a) + Outline(b)
  {
    if a == [] {
      assert a + b == b;
    } else {
      var c := a + b;
      assert c[0] == a[0] && c[1..] == a[1..] + b;
      OutlineAppend(a[1..], b);
      assert Outline(c) == MarkOf(a[0]) + Outline(a[1..] + b);
      AppendAssoc(MarkOf(a[0]), Outline(a[1..]), Outline(b));
    }
  }

  lemma {:induction false} FilesAppend(a: seq<Event>, b: seq<Event>)
    ensures Files(a + b) == Files(a) + Files(b)
  {
    if a == [] {
      assert a + b == b;
    } else {
      var c := a + b;
      assert c[0] == a[0] && c[1..] == a[1..] + b;
      FilesAppend(a[1..], b);
      assert Files(c) == FileOf(a[0]) + Files(a[1..] + b);
      AppendAssoc(FileOf(a[0]), Files(a[1..]), Files(b));
    }
  }

  lemma {:induction false} SleepsAppend(a: seq<Event>, b: seq<Event>)
    ensures Sleeps(a + b) == Sleeps(a) + Sleeps(b)
  {
    if a == [] {
      assert a + b == b;
    } else {
      var c := a + b;
      assert c[0] == a[0] && c[1..] == a[1..] + b;
      SleepsAppend(a[1..], b);
      assert Sleeps(c) == SleepOf(a[0]) + Sleeps(a[1..] + b);
      AppendAssoc(SleepOf(a[0]), Sleeps(a[1..]), Sleeps(b));
    }
  }

  lemma {:induction false} CheckpointsAppend(a: seq<Event>, b: seq<Event>)
    ensures Checkpoints(a + b) == Checkpoints(a) + Checkpoints(b)
  {
    if a == [] {
      assert a + b == b;
    } else {
      var c := a + b;
      assert c[0] == a[0] && c[1..] == a[1..] + b;
      CheckpointsAppend(a[1..], b);
      assert Checkpoints(c) == CheckpointOf(a[0]) + Checkpoints(a[1..] + b);
      AppendAssoc(CheckpointOf(a[0]), Checkpoints(a[1..]), Checkpoints(b));
    }
  }

  lemma ViewsAppend(a: seq<Event>, b: seq<Event>)
    ensures Outline(a + b) == Outline(a) + Outline(b)
    ensures Files(a + b) == Files(a) + Files(b)
    ensures Sleeps(a + b) == Sleeps(a) + Sleeps(b)
    ensures Checkpoints(a + b) == Checkpoints(a) + Checkpoints(b)
  {
    OutlineAppend(a, b);
    FilesAppend(a, b);
    SleepsAppend(a, b);
    CheckpointsAppend(a, b);
  }

  /** The views of a one-event trace are those of its event. */
  lemma OneEventViews(e: Event)
    ensures Outline([e]) == MarkOf(e) && Files([e]) == FileOf(e)
    ensures Sleeps([e]) == SleepOf(e) && Checkpoints([e]) == CheckpointOf(e)
  {
    assert [e][1..] == [];
  }

  /** A sleep between a trace that sleeps nothing and another trace adds just that sleep. */
  lemma SleepBetween(a: seq<Event>, t: int, b: seq<Event>)
    requires Sleeps(a) == []
    ensures Sleeps(a + [Sleep(t)] + b) == [t] + Sleeps(b)
  {
    var c := a + [Sleep(t)];
    SleepsAppend(a, [Sleep(t)]);
    OneEventViews(Sleep(t));
    assert Sleeps(c) == [t];
    SleepsAppend(c, b);
  }

  /** Service calls between a trace and its continuation do not show in the views. */
  lemma SilentBetween(x: seq<Event>, e: seq<Event>, t: seq<Event>)
    requires Silent(e)
    ensures Files(x + e + t) == Files(x) + Files(t)
    ensures Sleeps(x + e + t) == Sleeps(x) + Sleeps(t)
    ensures Checkpoints(x + e + t) == Checkpoints(x) + Checkpoints(t)
  {
    var y := x + e;
    SilentHasNoViews(e);
    FilesAppend(x, e);
    SleepsAppend(x, e);
    CheckpointsAppend(x, e);
    assert Files(y) == Files(x) && Sleeps(y) == Sleeps(x) && Checkpoints(y) == Checkpoints(x);
    FilesAppend(y, t);
    SleepsAppend(y, t);
    CheckpointsAppend(y, t);
  }

  /** At most one file write: the path it writes, no sleep and no checkpoint. */
  lemma WriteViews(written: bool, path: string)
    ensures var t := if written then [WriteFile(path)] else [];
            Files(t) == (if written then [path] else []) && Sleeps(t) == [] && Checkpoints(t) == []
  {
    OneEventViews(WriteFile(path));
  }

  /** A silent trace writes no file, requests no sleep and saves no checkpoint. */
  lemma {:induction false} SilentHasNoViews(es: seq<Event>)
    requires Silent(es)
    ensures Files(es) == [] && Sleeps(es) == [] && Checkpoints(es) == []
  {
    if es != [] {
      SilentHasNoViews(es[1..]);
    }
  }
}
