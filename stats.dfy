/**
 * One call of the status poll (`menubar.getStats`): take the parsed
 * `last_run_summary.yaml` of the Puppet agent, or the exception that
 * reading or parsing it raised, classify the resource counters into a
 * tray icon and a status word, and build the summary handed to the popup
 * window. Everything here is pure; the state the poll updates lives in
 * `Menubar.Menubar`.
 */
module Stats {
  import opened Js

  /** `opts.icons`: the complete, failing and pending icon paths, in that order. */
  type Icons = s: seq<string> | |s| == 3 witness ["", "", ""]

  const Complete: nat := 0
  const Failing: nat := 1
  const Pending: nat := 2

  /** The `resources` block of the status file; every counter may be missing. */
  datatype Resources = Resources(
    changed: Option<int>,
    failed: Option<int>,
    outOfSync: Option<int>,
    skipped: Option<int>,
    scheduled: Option<int>,
    total: Option<int>)

  /** The `time` block; a `time` that is present but not a mapping has no `last_run`. */
  datatype TimeSection = TimeSection(lastRun: Option<int>)

  /**
   * A parsed document that is not `null` or `undefined`; those two are `None`
   * where a document is expected. A scalar or array document has no `time` and
   * no `resources` property, so it is `Document(None, None)`.
   */
  datatype Document = Document(time: Option<TimeSection>, resources: Option<Resources>)

  /** A thrown JavaScript value: its `message` property (possibly missing) and its kind. */
  datatype Exception = Exception(kind: string, message: Option<string>)

  /** What reading and parsing the status file gave: a value, or the exception raised. */
  datatype Load = Threw(e: Exception) | Loaded(doc: Option<Document>)

  /**
   * `new Date(last_run * 1000).toLocaleString()`, kept opaque: the instant
   * in milliseconds, or `None` for an invalid date (`last_run` missing).
   */
  datatype LastRun = LastRun(millis: Option<int>)

  /** `this.summary` after a successful poll. */
  datatype Report = Report(lastRun: LastRun, resources: Resources, icon: string, status: string)

  /** The `error` field of a failure summary: the message, or the thrown value itself. */
  datatype ErrorText = Text(text: string) | Raw(value: Exception)

  /** What the poll hands to the popup window (`global.summary`). */
  datatype Published =
    | Success(report: Report)
    | FileMissing(error: string, icon: string)
    | Failure(reason: ErrorText, icon: string)
  {
    function Icon(): string {
      match this
      case Success(report) => report.icon
      case FileMissing(_, icon) => icon
      case Failure(_, icon) => icon
    }

    /** The `fileNotFound` flag, which only the file-not-found summary sets. */
    predicate FileNotFound() {
      FileMissing?
    }
  }

  /** The icon index and status word chosen for a report. */
  datatype Verdict = Verdict(item: nat, status: string)

  /** The status word that goes with each icon index. */
  function StatusName(item: nat): string {
    if item == Pending then "pending"
    else if item == Failing then "failing"
    else "synced"
  }

  /** The four counters any nonzero value of which means the run left work pending. */
  function PendingCounters(r: Resources): seq<Option<int>> {
    [r.changed, r.outOfSync, r.skipped, r.scheduled]
  }

  predicate AnyPending(r: Resources) {
    exists i :: 0 <= i < |PendingCounters(r)| && Truthy(PendingCounters(r)[i])
  }

  /** The icon and status chosen for the counters of a successful parse. */
  function Classify(r: Resources): (v: Verdict)
    ensures v.item < 3 && v.status == StatusName(v.item)
    ensures v.item == Pending <==> AnyPending(r)
    ensures v.item == Failing <==> !AnyPending(r) && Truthy(r.failed)
    ensures v.item == Complete <==> !AnyPending(r) && !Truthy(r.failed)
  {
    if Truthy(r.changed) || Truthy(r.outOfSync) || Truthy(r.skipped) || Truthy(r.scheduled) then
      assert Truthy(PendingCounters(r)[0]) || Truthy(PendingCounters(r)[1])
        || Truthy(PendingCounters(r)[2]) || Truthy(PendingCounters(r)[3]);
      Verdict(2, "pending")
    else if Truthy(r.failed) then
      Verdict(1, "failing")
    else
      Verdict(0, "synced")
  }

  /** What evaluating the property accesses of the success path gives. */
  datatype Access = Read(lastRun: LastRun, resources: Resources) | TypeError(message: string)

  /** The message a TypeError carries when a property of `undefined` is read. */
  function UndefinedPropertyMessage(property: string): (m: string)
    ensures m != "" && !StartsWith(m, "ENOENT:")
  {
    // the literal is split so that the verifier knows its first character
    var m := "C" + "annot read properties of undefined (reading '" + property + "')";
    assert m[0] == 'C';
    m
  }

  /**
   * `this.yaml.time.last_run` and `this.yaml.resources.changed`: reading a
   * property of a missing document or of a missing block throws.
   */
  function ReadDocument(doc: Option<Document>): (a: Access)
    ensures a.Read? <==> doc.Some? && doc.value.time.Some? && doc.value.resources.Some?
    ensures a.Read? ==> a.resources == doc.value.resources.value
    ensures a.Read? ==> (a.lastRun.millis.Some? <==> doc.value.time.value.lastRun.Some?)
    ensures a.Read? && a.lastRun.millis.Some? ==> a.lastRun.millis.value == doc.value.time.value.lastRun.value * 1000
    ensures a.TypeError? ==> a.message != "" && !StartsWith(a.message, "ENOENT:")
  {
    if doc.None? then TypeError(UndefinedPropertyMessage("time"))
    else if doc.value.time.None? then TypeError(UndefinedPropertyMessage("last_run"))
    else
      var lastRun := match doc.value.time.value.lastRun
        case None => LastRun(None)
        case Some(seconds) => LastRun(Some(seconds * 1000));
      if doc.value.resources.None? then TypeError(UndefinedPropertyMessage("changed"))
      else Read(lastRun, doc.value.resources.value)
  }

  const NotFoundPrefix: string := "File does not exist. Looking for "

  /** The summary published by the `catch` block for a thrown exception. */
  function Caught(icons: Icons, puppetFile: string, e: Exception): (p: Published)
    ensures p.Icon() == icons[Failing] && !p.Success?
    ensures p.FileNotFound() <==> StringTruthy(e.message) && StartsWith(e.message.value, "ENOENT:")
    ensures p.FileMissing? ==> p.error == NotFoundPrefix + puppetFile + "."
    ensures p.Failure? ==> p.reason == if StringTruthy(e.message) then Text(e.message.value) else Raw(e)
  {
    if StringTruthy(e.message) && IndexOf(e.message.value, "ENOENT:", 0) == 0 then
      FileMissing(NotFoundPrefix + puppetFile + ".", icons[Failing])
    else
      Failure(if StringTruthy(e.message) then Text(e.message.value) else Raw(e), icons[Failing])
  }

  /** The result of one poll: the icon index, the value assigned to `this.yaml` if any, and the published summary. */
  datatype Outcome = Outcome(item: nat, loaded: Option<Option<Document>>, published: Published)

  /** One call of `getStats` on what the read and parse produced. */
  function Poll(icons: Icons, puppetFile: string, load: Load): (o: Outcome)
    ensures o.item < 3 && o.published.Icon() == icons[o.item]
    ensures o.loaded == if load.Loaded? then Some(load.doc) else None
    ensures o.published.Success? <==> load.Loaded? && ReadDocument(load.doc).Read?
    ensures o.published.Success? ==>
      var doc := load.doc.value;
      o.published.report.resources == doc.resources.value
      && o.published.report.status == StatusName(o.item)
      && o.published.report.lastRun == ReadDocument(load.doc).lastRun
      && o.item == Classify(doc.resources.value).item
    ensures !o.published.Success? ==> o.item == Failing
    ensures load.Threw? ==> o.published == Caught(icons, puppetFile, load.e)
    ensures load.Loaded? && !o.published.Success? ==> o.published.Failure? && o.published.reason.Text?
  {
    match load
    case Threw(e) => Outcome(Failing, None, Caught(icons, puppetFile, e))
    case Loaded(doc) =>
      match ReadDocument(doc)
      case TypeError(message) =>
        Outcome(Failing, Some(doc), Caught(icons, puppetFile, Exception("TypeError", Some(message))))
      case Read(lastRun, resources) =>
        var v := Classify(resources);
        Outcome(v.item, Some(doc), Success(Report(lastRun, resources, icons[v.item], v.status)))
  }

  /** A truthy pending counter decides the status whatever `failed` holds. */
  lemma PendingIgnoresFailed(r: Resources, failed: Option<int>)
    requires AnyPending(r)
    ensures Classify(r) == Classify(r.(failed := failed)) == Verdict(Pending, "pending")
  {
  }

  /** The classification looks at the truthiness of five counters only; `total` and the values themselves do not matter. */
  lemma ClassifyDependsOnTruthiness(r: Resources, r': Resources)
    requires Truthy(r.changed) == Truthy(r'.changed) && Truthy(r.outOfSync) == Truthy(r'.outOfSync)
    requires Truthy(r.skipped) == Truthy(r'.skipped) && Truthy(r.scheduled) == Truthy(r'.scheduled)
    requires Truthy(r.failed) == Truthy(r'.failed)
    ensures Classify(r) == Classify(r')
  {
  }

  /** The precedence rule stated with `> 0`, for nonnegative counters. */
  function PositiveRule(r: Resources): (item: nat) {
    if Positive(r.changed) || Positive(r.outOfSync) || Positive(r.skipped) || Positive(r.scheduled) then Pending
    else if Positive(r.failed) then Failing
    else Complete
  }

  predicate Positive(n: Option<int>) {
    n.Some? && n.value > 0
  }

  predicate NoNegative(n: Option<int>) {
    n.None? || n.value >= 0
  }

  /** For counters that are missing or nonnegative, truthiness and `> 0` agree. */
  lemma ClassifyMatchesPositiveRule(r: Resources)
    requires NoNegative(r.changed) && NoNegative(r.outOfSync) && NoNegative(r.skipped)
    requires NoNegative(r.scheduled) && NoNegative(r.failed)
    ensures Classify(r).item == PositiveRule(r)
  {
  }

  /** A negative counter is truthy, so the code reports "pending" where a `> 0` rule would report "synced". */
  lemma NegativeCounterIsPending()
    ensures var r := Resources(Some(-1), Some(0), Some(0), Some(0), Some(0), Some(0));
      Classify(r).status == "pending" && PositiveRule(r) == Complete
  {
  }

  /** Every poll that does not produce a report ends on the failing icon, including a document lacking `time` or `resources`. */
  lemma NoReportMeansFailing(icons: Icons, puppetFile: string, doc: Option<Document>)
    requires doc.None? || doc.value.time.None? || doc.value.resources.None?
    ensures var o := Poll(icons, puppetFile, Loaded(doc));
      o.item == Failing && o.published.Icon() == icons[Failing] && !o.published.FileNotFound()
  {
  }

  /** The status file of a run that changed 3 of 10 resources is pending. */
  lemma ChangedRunIsPending(icons: Icons, puppetFile: string)
    ensures var doc := Document(Some(TimeSection(Some(1700000000))),
      Some(Resources(Some(3), Some(0), Some(0), Some(0), Some(0), Some(10))));
      var o := Poll(icons, puppetFile, Loaded(Some(doc)));
      o.item == Pending && o.published == Success(Report(LastRun(Some(1700000000000)),
        doc.resources.value, icons[Pending], "pending"))
  {
  }

  /** A run with failures and nothing else set is failing; a clean run is synced. */
  lemma FailedAndCleanRuns(icons: Icons, puppetFile: string)
    ensures Poll(icons, puppetFile, Loaded(Some(Document(Some(TimeSection(Some(1700000000))),
      Some(Resources(Some(0), Some(2), Some(0), Some(0), Some(0), Some(10))))))).published.report.status == "failing"
    ensures Poll(icons, puppetFile, Loaded(Some(Document(Some(TimeSection(Some(1700000000))),
      Some(Resources(Some(0), Some(0), Some(0), Some(0), Some(0), Some(10))))))).published.report.status == "synced"
  {
  }

  /** A missing status file gives the file-not-found summary, naming the path looked for. */
  lemma MissingFileNamesPath(icons: Icons, puppetFile: string, message: string)
    requires StartsWith(message, "ENOENT:")
    ensures var o := Poll(icons, puppetFile, Threw(Exception("Error", Some(message))));
      o.item == Failing && o.published.FileNotFound()
      && o.published.error[|NotFoundPrefix|..|NotFoundPrefix| + |puppetFile|] == puppetFile
  {
  }
}
