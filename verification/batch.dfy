/** The batch run over all subscribers (main.py:472-714): setup, one
    registry per subscriber, failure isolation and the success/failure tally. */
module Batch {
  import opened Wrappers
  import Seqs
  import Period
  import opened Consumption
  import Report
  import FileName

  /** A subscriber row. Only the id, the name and the transformation ratio
      are read by the batch; the meter descriptors are carried for completeness. */
  datatype Subscriber = Subscriber(
    id: int,
    name: string,
    electricityMeter: Option<string>,
    ratio: Option<real>,
    waterMeter: Option<string>,
    wastewater: Option<string>,
    gasMeter: Option<string>)

  /** The settings file; an absent or unreadable file is `Settings(None, [])`. */
  datatype Settings = Settings(savePath: Option<string>, signatures: seq<Report.Signature>)

  /** The collaborators the batch calls: the monthly-record lookup keyed by
      (subscriber id, month, year), folder creation, and document saving. */
  datatype Environment = Environment(
    lookup: (int, int, int) -> Option<Reading>,
    makeFolder: string -> Outcome,
    save: (string, seq<Report.Para>) -> Outcome)

  /** How one subscriber's iteration ended. */
  datatype Status = Saved(fileName: string) | NoData | Failed(message: string)

  /** One progress entry: the subscriber's name and its outcome. */
  datatype Entry = Entry(name: string, status: Status)

  datatype Counts = Counts(successful: nat, failed: nat)

  /** The final report of a completed run. */
  datatype Summary = Summary(successful: nat, failed: nat, folder: string, entries: seq<Entry>)

  /** A run either stops before the loop (no subscribers, folder creation
      failed) or completes with a summary. */
  datatype Run = NoSubscribers | SetupFailed(message: string) | Completed(summary: Summary)

  /** `<save_path>\<month name>`: the folder shared by the month's registries. */
  function OutputFolder(settings: Settings, month: int): (folder: string)
    requires 1 <= month <= 12
    ensures var root := settings.savePath.GetOr(FileName.DefaultSavePath);
            |root| <= |folder| && folder[..|root|] == root
    ensures |Period.MonthName(month)| <= |folder|
    ensures folder[|folder| - |Period.MonthName(month)|..] == Period.MonthName(month)
  {
    FileName.JoinPath(settings.savePath.GetOr(FileName.DefaultSavePath), Period.MonthName(month))
  }

  /** Different months never share an output folder. */
  lemma OutputFolderDistinguishesMonths(settings: Settings, m1: int, m2: int)
    requires 1 <= m1 <= 12 && 1 <= m2 <= 12
    requires OutputFolder(settings, m1) == OutputFolder(settings, m2)
    ensures m1 == m2
  {
    var root := settings.savePath.GetOr(FileName.DefaultSavePath);
    FileName.JoinPathInjective(root, Period.MonthName(m1), Period.MonthName(m2));
    Period.MonthNameInjective(m1, m2);
  }

  /** The rendered registry of one subscriber whose current record exists. */
  function Document(s: Subscriber, p: Period.Period, current: Reading, previous: Option<Reading>,
                    signatures: seq<Report.Signature>): seq<Report.Para>
    requires Period.Valid(p)
  {
    Report.Render(Report.Compose(s.name, Period.MonthName(p.month), p.year, s.ratio, current, previous, signatures))
  }

  /** One iteration of the loop: no current record is a skip, otherwise the
      registry is composed and saved, and a save error is a failure. */
  function ProcessOne(s: Subscriber, p: Period.Period, folder: string,
                      signatures: seq<Report.Signature>, env: Environment): (st: Status)
    requires Period.Valid(p)
    ensures st.NoData? <==> env.lookup(s.id, p.month, p.year).None?
    ensures st.Saved? ==> st.fileName == FileName.RegistryFileName(s.name, p.month, p.year)
    ensures st.Saved? <==>
              var current := env.lookup(s.id, p.month, p.year);
              var q := Period.Previous(p);
              && current.Some?
              && env.save(FileName.JoinPath(folder, FileName.RegistryFileName(s.name, p.month, p.year)),
                          Document(s, p, current.value, env.lookup(s.id, q.month, q.year), signatures)) == Pass
  {
    match env.lookup(s.id, p.month, p.year)
    case None => NoData
    case Some(current) =>
      var q := Period.Previous(p);
      var previous := env.lookup(s.id, q.month, q.year);
      var fileName := FileName.RegistryFileName(s.name, p.month, p.year);
      match env.save(FileName.JoinPath(folder, fileName), Document(s, p, current, previous, signatures))
      case Pass => Saved(fileName)
      case Fail(m) => Failed(m)
  }

  /** Every subscriber processed in order, each on its own. */
  function Process(subs: seq<Subscriber>, p: Period.Period, folder: string,
                   signatures: seq<Report.Signature>, env: Environment): (es: seq<Entry>)
    requires Period.Valid(p)
    ensures |es| == |subs|
    ensures forall i :: 0 <= i < |subs| ==>
              es[i] == Entry(subs[i].name, ProcessOne(subs[i], p, folder, signatures, env))
  {
    if |subs| == 0 then []
    else
      var front := subs[..|subs| - 1];
      var last := subs[|subs| - 1];
      assert forall i :: 0 <= i < |front| ==> front[i] == subs[i];
      Process(front, p, folder, signatures, env) + [Entry(last.name, ProcessOne(last, p, folder, signatures, env))]
  }

  predicate IsSaved(e: Entry) {
    e.status.Saved?
  }

  /** Skipped for want of data, or failed with an error. */
  predicate IsUnsaved(e: Entry) {
    !e.status.Saved?
  }

  /** The two counters of the loop: every entry adds to exactly one of them. */
  function Tally(es: seq<Entry>): (c: Counts)
    ensures c.successful + c.failed == |es|
    ensures c.successful == |Seqs.Filter(es, IsSaved)|
    ensures c.failed == |Seqs.Filter(es, IsUnsaved)|
  {
    Seqs.FilterPartition(es, IsSaved, IsUnsaved);
    if |es| == 0 then Counts(0, 0)
    else
      var c := Tally(es[..|es| - 1]);
      Seqs.FilterConcat(es[..|es| - 1], [es[|es| - 1]], IsSaved);
      assert es[..|es| - 1] + [es[|es| - 1]] == es;
      if IsSaved(es[|es| - 1]) then Counts(c.successful + 1, c.failed)
      else Counts(c.successful, c.failed + 1)
  }

  /** One more entry adds one to exactly one counter. */
  lemma TallyExtends(es: seq<Entry>, e: Entry)
    ensures Tally(es + [e]) == if IsSaved(e) then Counts(Tally(es).successful + 1, Tally(es).failed)
                               else Counts(Tally(es).successful, Tally(es).failed + 1)
  {
    assert (es + [e])[..|es|] == es;
  }

  /** Processing one more subscriber appends its entry. */
  lemma ProcessExtends(subs: seq<Subscriber>, i: nat, p: Period.Period, folder: string,
                       signatures: seq<Report.Signature>, env: Environment)
    requires Period.Valid(p)
    requires i < |subs|
    ensures Process(subs[..i + 1], p, folder, signatures, env)
         == Process(subs[..i], p, folder, signatures, env)
            + [Entry(subs[i].name, ProcessOne(subs[i], p, folder, signatures, env))]
  {
    assert subs[..i + 1][..i] == subs[..i];
  }

  /** The whole run for period (month, year). */
  function Generate(subs: seq<Subscriber>, month: int, year: int, settings: Settings, env: Environment): (r: Run)
    requires 1 <= month <= 12
    ensures subs == [] <==> r.NoSubscribers?
    ensures r.SetupFailed? <==> subs != [] && env.makeFolder(OutputFolder(settings, month)).Fail?
    ensures r.Completed? ==> r.summary.successful + r.summary.failed == |subs|
    ensures r.Completed? ==> r.summary.folder == OutputFolder(settings, month)
    ensures r.Completed? ==> |r.summary.entries| == |subs|
    ensures r.Completed? ==> forall i :: 0 <= i < |subs| ==>
              r.summary.entries[i] ==
                Entry(subs[i].name, ProcessOne(subs[i], Period.Period(month, year),
                                               OutputFolder(settings, month), settings.signatures, env))
  {
    if |subs| == 0 then NoSubscribers
    else
      var folder := OutputFolder(settings, month);
      match env.makeFolder(folder)
      case Fail(m) => SetupFailed(m)
      case Pass =>
        var es := Process(subs, Period.Period(month, year), folder, settings.signatures, env);
        var c := Tally(es);
        Completed(Summary(c.successful, c.failed, folder, es))
  }

  /** A run whose folder is made completes with the tally of every subscriber's entry. */
  lemma GenerateCompletes(subs: seq<Subscriber>, month: int, year: int, settings: Settings, env: Environment)
    requires 1 <= month <= 12
    requires subs != [] && env.makeFolder(OutputFolder(settings, month)) == Pass
    ensures var es := Process(subs, Period.Period(month, year), OutputFolder(settings, month), settings.signatures, env);
            Generate(subs, month, year, settings, env)
              == Completed(Summary(Tally(es).successful, Tally(es).failed, OutputFolder(settings, month), es))
  {
  }

  /** The loop as written: two counters, one increment per subscriber, and a
      caught failure moves on to the next subscriber. */
  method GenerateRegistries(subs: seq<Subscriber>, month: int, year: int, settings: Settings, env: Environment)
    returns (r: Run)
    requires 1 <= month <= 12
    ensures r == Generate(subs, month, year, settings, env)
    ensures r.Completed? ==> r.summary.successful + r.summary.failed == |subs|
  {
    if |subs| == 0 {
      return NoSubscribers;
    }
    var folder := OutputFolder(settings, month);
    var made := env.makeFolder(folder);
    if made.Fail? {
      return SetupFailed(made.message);
    }
    var p := Period.Period(month, year);
    var successful, failed := 0, 0;
    var entries: seq<Entry> := [];
    var i := 0;
    while i < |subs|
      invariant 0 <= i <= |subs|
      invariant entries == Process(subs[..i], p, folder, settings.signatures, env)
      invariant Counts(successful, failed) == Tally(entries)
    {
      var status := ProcessOne(subs[i], p, folder, settings.signatures, env);
      var entry := Entry(subs[i].name, status);
      if status.Saved? {
        successful := successful + 1;
      } else {
        failed := failed + 1;
      }
      ProcessExtends(subs, i, p, folder, settings.signatures, env);
      TallyExtends(entries, entry);
      entries := entries + [entry];
      i := i + 1;
    }
    assert subs[..i] == subs;
    GenerateCompletes(subs, month, year, settings, env);
    return Completed(Summary(successful, failed, folder, entries));
  }

  /** Subscribers are processed independently: the entries of a longer list
      are those of its parts, so no outcome cuts the batch short. */
  lemma {:induction false} ProcessConcat(a: seq<Subscriber>, b: seq<Subscriber>, p: Period.Period, folder: string,
                                         signatures: seq<Report.Signature>, env: Environment)
    requires Period.Valid(p)
    ensures Process(a + b, p, folder, signatures, env)
         == Process(a, p, folder, signatures, env) + Process(b, p, folder, signatures, env)
    decreases |b|
  {
    if |b| > 0 {
      var b' := b[..|b| - 1];
      assert (a + b)[..|a + b| - 1] == a + b';
      ProcessConcat(a, b', p, folder, signatures, env);
    } else {
      assert a + b == a;
    }
  }

  /** A subscriber without a record for the period followed by one with a
      record: one failure, one success, and the second registry is still saved. */
  lemma FailureThenSuccess(a: Subscriber, b: Subscriber, month: int, year: int, settings: Settings, env: Environment)
    requires 1 <= month <= 12
    requires env.lookup(a.id, month, year).None?
    requires env.lookup(b.id, month, year).Some?
    requires forall path :: env.makeFolder(path) == Pass
    requires forall path, doc :: env.save(path, doc) == Pass
    ensures Generate([a, b], month, year, settings, env).Completed?
    ensures Generate([a, b], month, year, settings, env).summary.successful == 1
    ensures Generate([a, b], month, year, settings, env).summary.failed == 1
    ensures Generate([a, b], month, year, settings, env).summary.entries[1].status.Saved?
  {
    assert env.makeFolder(OutputFolder(settings, month)) == Pass;
    var r := Generate([a, b], month, year, settings, env);
    var es := r.summary.entries;
    assert es == [es[0], es[1]];
    assert Seqs.Filter(es, IsSaved) == [es[1]];
  }

  /** With a current record and a save that always passes, the subscriber's
      registry is saved under its registry file name. */
  lemma SavedWhenSavePasses(s: Subscriber, p: Period.Period, folder: string,
                            signatures: seq<Report.Signature>, env: Environment)
    requires Period.Valid(p)
    requires env.lookup(s.id, p.month, p.year).Some?
    requires forall path, doc :: env.save(path, doc) == Pass
    ensures ProcessOne(s, p, folder, signatures, env) == Saved(FileName.RegistryFileName(s.name, p.month, p.year))
  {
  }

  /** Two subscribers whose names sanitise alike are both saved, under the
      same file name, and both count as successes. */
  lemma CollidingNamesBothSaved(a: Subscriber, b: Subscriber, month: int, year: int, settings: Settings, env: Environment)
    requires 1 <= month <= 12
    requires FileName.Sanitize(a.name) == FileName.Sanitize(b.name)
    requires env.lookup(a.id, month, year).Some? && env.lookup(b.id, month, year).Some?
    requires forall path :: env.makeFolder(path) == Pass
    requires forall path, doc :: env.save(path, doc) == Pass
    ensures Generate([a, b], month, year, settings, env).Completed?
    ensures Generate([a, b], month, year, settings, env).summary.successful == 2
    ensures Generate([a, b], month, year, settings, env).summary.entries[0].status
         == Generate([a, b], month, year, settings, env).summary.entries[1].status
         == Saved(FileName.RegistryFileName(a.name, month, year))
  {
    var folder := OutputFolder(settings, month);
    var p := Period.Period(month, year);
    assert env.makeFolder(folder) == Pass;
    FileName.SameSafeNameSameFileName(a.name, b.name, month, year);
    var file := FileName.RegistryFileName(a.name, month, year);
    SavedWhenSavePasses(a, p, folder, settings.signatures, env);
    SavedWhenSavePasses(b, p, folder, settings.signatures, env);
    GenerateCompletes([a, b], month, year, settings, env);
    var es := Process([a, b], p, folder, settings.signatures, env);
    assert es[0].status == Saved(file) && es[1].status == Saved(file);
    Seqs.FilterKeepsAll(es, IsSaved);
  }

  /** A record whose four readings are all NULL is not a missing record:
      its registry (without sections) is still saved and counted a success. */
  lemma AllNullRecordStillSaved(s: Subscriber, p: Period.Period, folder: string,
                                signatures: seq<Report.Signature>, env: Environment)
    requires Period.Valid(p)
    requires env.lookup(s.id, p.month, p.year) == Some(Reading(None, None, None, None))
    requires forall path, doc :: env.save(path, doc) == Pass
    ensures ProcessOne(s, p, folder, signatures, env) == Saved(FileName.RegistryFileName(s.name, p.month, p.year))
  {
  }
}
