/** `generate_and_send_report`: one scheduled run. The health check is tried
    at most three times with a pause between attempts; if it never succeeds
    an alert goes out over Telegram and the run stops before any report is
    generated. Otherwise the report is generated, a backup file is written
    first, and then every configured channel is tried, the run counting as
    delivered when any of them succeeds.

    The outside world is a parameter: which health probes succeed, the MCP
    backend, which channels accept a message, and the clock readings the run
    formats into text. The run is recorded as a trace of its effects. */
module RunControl {
  import opened PyValues
  import opened McpClient
  import Report

  const MaxRetries: nat := 3
  const PauseSeconds: nat := 5

  datatype Channel = Telegram | WhatsApp | Email

  /** The delivery settings at the top of the script; an empty str is an
      unset setting. */
  datatype Config = Config(telegramToken: string, telegramChatId: string, whatsappUrl: string, emailSender: string)

  /** Whether the run tries `ch` at all: Telegram needs both the bot token and
      the chat id, WhatsApp the API URL, email the sender address. */
  predicate Configured(cfg: Config, ch: Channel) {
    match ch
    case Telegram => cfg.telegramToken != "" && cfg.telegramChatId != ""
    case WhatsApp => cfg.whatsappUrl != ""
    case Email => cfg.emailSender != ""
  }

  /** The order in which the run tries the channels. */
  const Channels: seq<Channel> := [Telegram, WhatsApp, Email]

  /** What the run does to the outside world: a health probe (numbered from
      0), a pause, a `tools/call` request to the MCP server, the backup file,
      a message on a channel. */
  datatype Event =
    | Probe(attempt: nat)
    | Pause(seconds: nat)
    | Post(request: Json)
    | Backup(path: string, text: string)
    | Send(channel: Channel, text: string)

  /** The world the run sees: the outcome of each health probe, the MCP
      backend, whether a channel accepts a message, and the formatted clock
      readings for the report footer, the alert and the backup file name. */
  datatype World = World(
    healthy: nat -> bool,
    backend: Backend,
    accepts: Channel -> bool,
    reportTime: string,
    alertTime: string,
    fileStamp: string)

  /** How a run ends: stopped after the failed health checks, ended by an
      exception from report generation, or finished with the report and
      whether any channel delivered it. */
  datatype RunOutcome = Aborted | Crashed(exc: Exc) | Finished(report: string, delivered: bool)

  function AlertText(time: string): string {
    "\U{1F6A8} MOLTBOT ALERT\nFailed to connect to PelangiManager MCP server.\n"
      + "Please check if the server is running.\nTime: " + time
  }

  function BackupPath(stamp: string): string {
    "pelangi_report_" + stamp + ".txt"
  }

  /** `send_telegram` returns without sending when the credentials are
      unset, so the alert leaves the process only for a configured Telegram. */
  function Alerting(cfg: Config, time: string): (r: seq<Event>)
    ensures |r| <= 1
    ensures r != [] <==> Configured(cfg, Telegram)
    ensures forall e :: e in r ==> e == Send(Telegram, AlertText(time))
  {
    if Configured(cfg, Telegram) then [Send(Telegram, AlertText(time))] else []
  }

  /** The first of the three attempts whose probe succeeds, or `MaxRetries`
      when none does. */
  function FirstHealthy(healthy: nat -> bool, from: nat): (k: nat)
    requires from <= MaxRetries
    ensures from <= k <= MaxRetries
    ensures k < MaxRetries ==> healthy(k)
    ensures forall i :: from <= i < k ==> !healthy(i)
    decreases MaxRetries - from
  {
    if from == MaxRetries || healthy(from) then from else FirstHealthy(healthy, from + 1)
  }

  /** The effects of `n` failed health checks: each probe is followed by a
      pause, except the last of the three. */
  function Failed(n: nat): (r: seq<Event>)
    requires n <= MaxRetries
    ensures forall e :: e in r ==> e.Probe? || e == Pause(PauseSeconds)
    ensures forall i :: 0 <= i < |r| && r[i].Probe? ==> r[i].attempt < n
  {
    if n == 0 then []
    else Failed(n - 1) + [Probe(n - 1)] + (if n < MaxRetries then [Pause(PauseSeconds)] else [])
  }

  function Posts(requests: seq<Json>): (r: seq<Event>)
    ensures |r| == |requests|
    ensures forall i :: 0 <= i < |r| ==> r[i] == Post(requests[i])
  {
    seq(|requests|, i requires 0 <= i < |requests| => Post(requests[i]))
  }

  /** The position of `ch` in the order the run tries the channels. */
  function Position(ch: Channel): (i: nat)
    ensures i < |Channels| && Channels[i] == ch
  {
    match ch
    case Telegram => 0
    case WhatsApp => 1
    case Email => 2
  }

  /** The messages the run sends for `report` when it goes through the
      channels `chs` in order: one for each configured channel. */
  function Attempts(cfg: Config, report: string, chs: seq<Channel>): (r: seq<Event>)
    ensures forall e :: e in r ==> e.Send? && e.text == report && Configured(cfg, e.channel) && e.channel in chs
    ensures forall ch :: ch in chs && Configured(cfg, ch) ==> Send(ch, report) in r
  {
    if |chs| == 0 then []
    else
      var last := chs[|chs| - 1];
      var before := Attempts(cfg, report, chs[..|chs| - 1]);
      assert forall ch :: ch in chs ==> ch in chs[..|chs| - 1] || ch == last;
      before + (if Configured(cfg, last) then [Send(last, report)] else [])
  }

  /** Some configured channel among the first `n` accepted the report. */
  predicate DeliveredWithin(cfg: Config, accepts: Channel -> bool, n: nat) {
    exists ch :: Position(ch) < n && Configured(cfg, ch) && accepts(ch)
  }

  lemma DeliveredStep(cfg: Config, accepts: Channel -> bool, n: nat)
    requires n < |Channels|
    ensures DeliveredWithin(cfg, accepts, n + 1) <==>
      DeliveredWithin(cfg, accepts, n) || (Configured(cfg, Channels[n]) && accepts(Channels[n]))
  {
    assert Position(Channels[n]) == n;
  }

  lemma AttemptsStep(cfg: Config, report: string, n: nat)
    requires n < |Channels|
    ensures Attempts(cfg, report, Channels[..n + 1]) ==
      Attempts(cfg, report, Channels[..n]) + (if Configured(cfg, Channels[n]) then [Send(Channels[n], report)] else [])
  {
    assert Channels[..n + 1][..n] == Channels[..n];
  }

  /** Tries every configured channel in turn. A channel's failure does not
      stop the others, and the run counts as delivered when any configured
      channel accepted the report. */
  method Dispatch(cfg: Config, report: string, accepts: Channel -> bool) returns (sends: seq<Event>, delivered: bool)
    ensures sends == Attempts(cfg, report, Channels)
    ensures delivered <==> exists ch :: Configured(cfg, ch) && accepts(ch)
  {
    sends := [];
    delivered := false;
    var i := 0;
    while i < |Channels|
      invariant 0 <= i <= |Channels|
      invariant sends == Attempts(cfg, report, Channels[..i])
      invariant delivered <==> DeliveredWithin(cfg, accepts, i)
    {
      var ch := Channels[i];
      AttemptsStep(cfg, report, i);
      DeliveredStep(cfg, accepts, i);
      if Configured(cfg, ch) {
        sends := sends + [Send(ch, report)];
        delivered := accepts(ch) || delivered;
      }
      i := i + 1;
    }
    assert Channels[..i] == Channels;
    assert delivered <==> exists ch :: Configured(cfg, ch) && accepts(ch) by {
      forall ch ensures Position(ch) < i {
      }
    }
  }

  /** The run messages exactly the configured channels, each with the
      report itself. */
  lemma AttemptsAreConfigured(cfg: Config, report: string)
    ensures forall e :: e in Attempts(cfg, report, Channels) ==> e.Send? && e.text == report
    ensures forall ch :: Send(ch, report) in Attempts(cfg, report, Channels) <==> Configured(cfg, ch)
  {
    forall ch | Configured(cfg, ch) ensures Send(ch, report) in Attempts(cfg, report, Channels) {
      assert Channels[Position(ch)] == ch;
    }
  }

  /** The health check loop: at most three probes, stopping at the first
      success, with a pause after every failed probe but the third. */
  method HealthCheck(healthy: nat -> bool) returns (probes: seq<Event>, ok: bool)
    ensures ok <==> FirstHealthy(healthy, 0) < MaxRetries
    ensures ok ==> probes == Failed(FirstHealthy(healthy, 0)) + [Probe(FirstHealthy(healthy, 0))]
    ensures !ok ==> probes == Failed(MaxRetries)
  {
    probes := [];
    ok := false;
    var attempt := 0;
    while attempt < MaxRetries && !ok
      invariant attempt <= MaxRetries
      invariant ok ==> 0 < attempt && FirstHealthy(healthy, 0) == attempt - 1
      invariant ok ==> probes == Failed(attempt - 1) + [Probe(attempt - 1)]
      invariant !ok ==> forall i :: 0 <= i < attempt ==> !healthy(i)
      invariant !ok ==> probes == Failed(attempt)
      decreases MaxRetries - attempt
    {
      probes := probes + [Probe(attempt)];
      if healthy(attempt) {
        FirstHealthyAfterFailures(healthy, attempt);
        ok := true;
      } else if attempt < MaxRetries - 1 {
        probes := probes + [Pause(PauseSeconds)];
      }
      attempt := attempt + 1;
    }
    if !ok {
      FirstHealthyAfterFailures(healthy, MaxRetries);
    }
  }

  /** What the run does once the health check passed and `run` is the result
      of `generate_report()`: the tool calls; then, when generation raised,
      nothing more; otherwise the backup file first and afterwards a message
      to exactly the configured channels, the run counting as delivered when
      any of them accepted it. */
  ghost predicate Conclusion(cfg: Config, w: World, run: Report.ReportRun, events: seq<Event>, outcome: RunOutcome) {
    && !outcome.Aborted?
    && (outcome.Crashed? <==> run.report.Raise?)
    && (outcome.Crashed? ==> outcome.exc == run.report.exc && events == Posts(run.requests))
    && (outcome.Finished? ==>
          && outcome.report == run.report.value
          && events == Posts(run.requests) + [Backup(BackupPath(w.fileStamp), outcome.report)]
                         + Attempts(cfg, outcome.report, Channels)
          && (outcome.delivered <==> exists ch :: Configured(cfg, ch) && w.accepts(ch)))
  }

  method Conclude(cfg: Config, w: World, run: Report.ReportRun) returns (events: seq<Event>, outcome: RunOutcome)
    ensures Conclusion(cfg, w, run, events, outcome)
  {
    events := Posts(run.requests);
    match run.report {
      case Raise(e) =>
        outcome := Crashed(e);
      case Ok(report) =>
        events := events + [Backup(BackupPath(w.fileStamp), report)];
        var sends, delivered := Dispatch(cfg, report, w.accepts);
        events := events + sends;
        outcome := Finished(report, delivered);
    }
  }

  /** One run of `generate_and_send_report` on a fresh MCP client. */
  method RunOnce(cfg: Config, w: World) returns (trace: seq<Event>, outcome: RunOutcome)
    // At most three probes; the run goes on exactly when one succeeds, right
    // after the first success.
    ensures var k := FirstHealthy(w.healthy, 0);
      && (outcome.Aborted? <==> k == MaxRetries)
      && (outcome.Aborted? ==> trace == Failed(MaxRetries) + Alerting(cfg, w.alertTime))
    // After the successful probe comes what the generated report leads to.
    ensures var k := FirstHealthy(w.healthy, 0);
      !outcome.Aborted? ==>
        && Failed(k) + [Probe(k)] <= trace
        && Conclusion(cfg, w, Report.GenerateReport(w.backend, Client(0), w.reportTime), trace[|Failed(k)| + 1..], outcome)
  {
    var probes, ok := HealthCheck(w.healthy);
    if !ok {
      return probes + Alerting(cfg, w.alertTime), Aborted;
    }
    var run := Report.GenerateReport(w.backend, Client(0), w.reportTime);
    var events;
    events, outcome := Conclude(cfg, w, run);
    trace := probes + events;
    assert trace[|probes|..] == events;
  }

  // -------------------------------------------------------------- lemmas

  /** When every probe before `n` failed, the first healthy attempt is `n`
      or later. */
  lemma {:induction false} FirstHealthyAfterFailures(healthy: nat -> bool, n: nat)
    requires n <= MaxRetries
    requires forall i :: 0 <= i < n ==> !healthy(i)
    ensures FirstHealthy(healthy, 0) == FirstHealthy(healthy, n)
    decreases n
  {
    if n > 0 {
      FirstHealthyAfterFailures(healthy, n - 1);
    }
  }

  /** With no channel configured a finished run only writes the backup
      file, and the report counts as not delivered. */
  lemma NoChannelBackupOnly(cfg: Config, w: World, run: Report.ReportRun, events: seq<Event>, outcome: RunOutcome)
    requires Conclusion(cfg, w, run, events, outcome)
    requires outcome.Finished?
    requires forall ch :: !Configured(cfg, ch)
    ensures events == Posts(run.requests) + [Backup(BackupPath(w.fileStamp), outcome.report)]
    ensures !outcome.delivered
  {
    NoAttempts(cfg, outcome.report, Channels);
  }

  lemma {:induction false} NoAttempts(cfg: Config, report: string, chs: seq<Channel>)
    requires forall ch :: !Configured(cfg, ch)
    ensures Attempts(cfg, report, chs) == []
    decreases |chs|
  {
    if |chs| > 0 {
      NoAttempts(cfg, report, chs[..|chs| - 1]);
    }
  }

  /** Three failed health checks are three probes with a five-second pause
      between consecutive ones. */
  lemma AbortedProbes()
    ensures Failed(MaxRetries) == [Probe(0), Pause(5), Probe(1), Pause(5), Probe(2)]
  {
  }
}
