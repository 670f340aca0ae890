/** `ReportGenerator.generate_report`: five tool calls on one client, each
    followed by its section renderer, assembled between a fixed banner and a
    footer carrying the generation time. The time is a parameter. */
module Report {
  import opened PyValues
  import opened McpClient
  import S = Sections

  /** The five tools the report queries, in call order. */
  datatype Tool = Occupancy | CapsuleList | GuestList | OverdueGuests | MaintenanceIssues

  const ReportTools: seq<Tool> := [Occupancy, CapsuleList, GuestList, OverdueGuests, MaintenanceIssues]

  function ToolName(t: Tool): string {
    match t
    case Occupancy => "pelangi_get_occupancy"
    case CapsuleList => "pelangi_list_capsules"
    case GuestList => "pelangi_list_guests"
    case OverdueGuests => "pelangi_get_overdue_guests"
    case MaintenanceIssues => "pelangi_export_whatsapp_issues"
  }

  /** Only the guest list is asked for a page: page 1, at most 100 guests. */
  function ToolArguments(t: Tool): seq<Entry> {
    if t == GuestList then [Entry("page", JInt(1)), Entry("limit", JInt(100))] else []
  }

  function Lift(section: Outcome<string>): Outcome<Json> {
    match section
    case Ok(text) => Ok(JStr(text))
    case Raise(e) => Raise(e)
  }

  /** The section method of tool `t` applied to what `call_tool` returned or
      raised; an exception from `call_tool` passes straight through. */
  function SectionOf(t: Tool, answer: Outcome<Json>): Outcome<Json> {
    match answer
    case Raise(e) => Raise(e)
    case Ok(data) =>
      match t
      case Occupancy => Lift(S.OccupancySection(data))
      case CapsuleList => Lift(S.CapsuleSection(data))
      case GuestList => Lift(S.GuestSection(data))
      case OverdueGuests => Lift(S.OverdueSection(data))
      case MaintenanceIssues => S.MaintenanceSection(data)
  }

  /** The text a section shows when its tool call failed in transport. */
  function Placeholder(t: Tool): string {
    match t
    case Occupancy => S.OccupancyUnavailable
    case CapsuleList => S.CapsuleUnavailable
    case GuestList => S.GuestUnavailable
    case OverdueGuests => S.OverdueUnavailable
    case MaintenanceIssues => S.MaintenanceUnavailable
  }

  /** The sections gathered so far: the client, the payloads posted, and the
      section values, or the exception that stopped the report. */
  datatype Collected = Collected(client: Client, requests: seq<Json>, parts: Outcome<seq<Json>>)

  /** The section calls of `tools`, in order, on one client, where
      `section(t, request)` is what the section method of `t` makes of what
      `call_tool` returns or raises for the payload `request`. The first
      exception stops the sequence: no later tool is called. */
  function Collect(section: (Tool, Json) -> Outcome<Json>, c: Client, tools: seq<Tool>): (r: Collected)
    ensures 0 < |r.requests| <= |tools| || (|tools| == 0 && r.requests == [])
    ensures r.client.requestId == c.requestId + |r.requests|
    ensures r.parts.Ok? ==> |r.requests| == |tools| && |r.parts.value| == |tools|
    ensures r.parts.Raise? ==> 0 < |r.requests|
    decreases |tools|
  {
    if |tools| == 0 then Collected(c, [], Ok([]))
    else
      var t := tools[0];
      var client := Client(c.requestId + 1);
      var request := Payload(ToolName(t), ToolArguments(t), client.requestId);
      match section(t, request)
      case Raise(e) => Collected(client, [request], Raise(e))
      case Ok(part) =>
        var rest := Collect(section, client, tools[1..]);
        var requests := [request] + rest.requests;
        match rest.parts
        case Raise(e) => Collected(rest.client, requests, Raise(e))
        case Ok(parts) => Collected(rest.client, requests, Ok([part] + parts))
  }

  /** Each collected section is what its own call rendered to; on an
      exception, every earlier call rendered and the last call made is the
      one that raised. */
  lemma CollectSections(section: (Tool, Json) -> Outcome<Json>, c: Client, tools: seq<Tool>)
    ensures var r := Collect(section, c, tools);
      && (r.parts.Ok? ==> forall i :: 0 <= i < |tools| ==>
            section(tools[i], r.requests[i]) == Ok(r.parts.value[i]))
      && (r.parts.Raise? ==>
            && (forall i :: 0 <= i < |r.requests| - 1 ==> section(tools[i], r.requests[i]).Ok?)
            && section(tools[|r.requests| - 1], r.requests[|r.requests| - 1]) == Raise(r.parts.exc))
  {
    CollectParts(section, c, tools);
    CollectRaise(section, c, tools);
  }

  lemma {:induction false} CollectParts(section: (Tool, Json) -> Outcome<Json>, c: Client, tools: seq<Tool>)
    ensures var r := Collect(section, c, tools);
      r.parts.Ok? ==> forall i :: 0 <= i < |tools| ==> section(tools[i], r.requests[i]) == Ok(r.parts.value[i])
    decreases |tools|
  {
    var r := Collect(section, c, tools);
    if |tools| > 0 && r.parts.Ok? {
      var t := tools[0];
      var client := Client(c.requestId + 1);
      var request := Payload(ToolName(t), ToolArguments(t), client.requestId);
      var rest := Collect(section, client, tools[1..]);
      CollectParts(section, client, tools[1..]);
      assert r.requests == [request] + rest.requests;
      assert r.parts.value == [section(t, request).value] + rest.parts.value;
      forall i | 1 <= i < |tools| ensures section(tools[i], r.requests[i]) == Ok(r.parts.value[i]) {
        assert r.requests[i] == rest.requests[i - 1] && tools[i] == tools[1..][i - 1];
        assert r.parts.value[i] == rest.parts.value[i - 1];
      }
    }
  }

  lemma {:induction false} CollectRaise(section: (Tool, Json) -> Outcome<Json>, c: Client, tools: seq<Tool>)
    ensures var r := Collect(section, c, tools);
      r.parts.Raise? ==>
        && (forall i :: 0 <= i < |r.requests| - 1 ==> section(tools[i], r.requests[i]).Ok?)
        && section(tools[|r.requests| - 1], r.requests[|r.requests| - 1]) == Raise(r.parts.exc)
    decreases |tools|
  {
    var r := Collect(section, c, tools);
    if |tools| > 0 && r.parts.Raise? {
      var t := tools[0];
      var client := Client(c.requestId + 1);
      var request := Payload(ToolName(t), ToolArguments(t), client.requestId);
      if section(t, request).Raise? {
        assert r == Collected(client, [request], Raise(section(t, request).exc));
      } else {
        var rest := Collect(section, client, tools[1..]);
        assert r == Collected(rest.client, [request] + rest.requests, Raise(rest.parts.exc));
        CollectRaise(section, client, tools[1..]);
        var last := |r.requests| - 1;
        assert r.requests[last] == rest.requests[last - 1] && tools[last] == tools[1..][last - 1];
        forall i | 1 <= i < last ensures section(tools[i], r.requests[i]).Ok? {
          assert r.requests[i] == rest.requests[i - 1] && tools[i] == tools[1..][i - 1];
        }
      }
    }
  }

  /** The calls made post the payloads of the first tools in order, with
      request ids counting up from the client's. */
  lemma {:induction false} CollectRequests(section: (Tool, Json) -> Outcome<Json>, c: Client, tools: seq<Tool>)
    ensures Collect(section, c, tools).requests <= Payloads(tools, c.requestId)
    decreases |tools|
  {
    if |tools| > 0 {
      CollectRequests(section, Client(c.requestId + 1), tools[1..]);
    }
  }

  /** What the report makes of the payload `request` for tool `t`. */
  function ToolSection(b: Backend, t: Tool, request: Json): Outcome<Json> {
    SectionOf(t, Answer(b, request))
  }

  /** The section maker the report uses. */
  function ReportSection(b: Backend): (Tool, Json) -> Outcome<Json> {
    (t, request) => ToolSection(b, t, request)
  }

  /** One step of the report's sequence of calls is `call_tool` against the
      backend followed by the tool's section method: the first payload is the
      one `call_tool` posts, an exception from either ends the report, and
      otherwise the remaining tools are called on the client `call_tool`
      leaves behind. */
  lemma CollectStep(b: Backend, c: Client, tools: seq<Tool>)
    requires |tools| > 0
    ensures var call := CallTool(c, ToolName(tools[0]), ToolArguments(tools[0]), b);
      var r := Collect(ReportSection(b), c, tools);
      && r.requests[0] == call.request
      && (SectionOf(tools[0], call.result).Raise? ==>
            r == Collected(call.client, [call.request], Raise(SectionOf(tools[0], call.result).exc)))
      && (SectionOf(tools[0], call.result).Ok? ==>
            r.requests[1..] == Collect(ReportSection(b), call.client, tools[1..]).requests)
  {
  }

  /** The payloads `call_tool` posts for `tools` on a client whose last
      request id is `last`. */
  function Payloads(tools: seq<Tool>, last: nat): (r: seq<Json>)
    ensures |r| == |tools|
    ensures forall i :: 0 <= i < |tools| ==>
      r[i] == Payload(ToolName(tools[i]), ToolArguments(tools[i]), last + i + 1)
  {
    if |tools| == 0 then []
    else [Payload(ToolName(tools[0]), ToolArguments(tools[0]), last + 1)] + Payloads(tools[1..], last + 1)
  }

  const Banner: string := "\U{1F3E8} PELANGI CAPSULE HOSTEL - DAILY OPERATIONS REPORT"
  const Signature: string := "\U{1F916} Automated by Moltbot v1.0"

  function Stamp(timestamp: string): string {
    "\U{1F4C5} Report Generated: " + timestamp
  }

  /** Each section followed by the blank line appended after it. */
  function Spaced(parts: seq<Json>): (r: seq<Json>)
    ensures |r| == 2 * |parts|
  {
    if |parts| == 0 then [] else [parts[0], JStr("")] + Spaced(parts[1..])
  }

  /** The `report` list before `"\n".join(report)`. */
  function Lines(parts: seq<Json>, timestamp: string): seq<Json> {
    [JStr(Banner), JStr(S.Rule(55)), JStr("")] + Spaced(parts)
      + [JStr(S.Rule(55)), JStr(Stamp(timestamp)), JStr(Signature)]
  }

  /** `"\n".join(report)` over the collected sections: a text exactly when
      every section is a str, a TypeError otherwise. The text is the banner
      and rule, a blank line, the sections separated by blank lines, a blank
      line, and the footer. */
  function Render(parts: seq<Json>, timestamp: string): (r: Outcome<string>)
    ensures r.Ok? <==> AllStr(parts)
    ensures r.Raise? ==> r.exc == TypeError
    ensures r.Ok? && |parts| > 0 ==>
      r.value == (Banner + "\n" + S.Rule(55)) + "\n\n" + Join("\n\n", Texts(parts)) + "\n\n" + Footer(timestamp)
  {
    LinesAllStr(parts, timestamp);
    if AllStr(parts) && |parts| > 0 then
      LinesText(parts, timestamp);
      JoinJson("\n", Lines(parts, timestamp))
    else
      JoinJson("\n", Lines(parts, timestamp))
  }

  datatype ReportRun = ReportRun(client: Client, requests: seq<Json>, report: Outcome<string>)

  /** `generate_report()` on client `c` at time `timestamp`. */
  function GenerateReport(b: Backend, c: Client, timestamp: string): (r: ReportRun)
    ensures 0 < |r.requests| <= |ReportTools|
    ensures r.client.requestId == c.requestId + |r.requests|
    ensures r.report.Ok? ==> |r.requests| == |ReportTools|
  {
    var collected := Collect(ReportSection(b), c, ReportTools);
    var report :=
      match collected.parts
      case Raise(e) => Raise(e)
      case Ok(parts) => Render(parts, timestamp);
    ReportRun(collected.client, collected.requests, report)
  }

  // -------------------------------------------------------------- lemmas

  lemma SpacedAllStr(parts: seq<Json>)
    ensures AllStr(Spaced(parts)) <==> AllStr(parts)
    ensures AllStr(parts) ==> Texts(Spaced(parts)) == SpacedTexts(Texts(parts))
  {
    SpacedStrs(parts);
    if AllStr(parts) {
      SpacedTextsOf(parts);
    }
  }

  lemma AllStrCons(x: Json, ys: seq<Json>)
    ensures AllStr([x] + ys) <==> x.JStr? && AllStr(ys)
  {
    var all := [x] + ys;
    if x.JStr? && AllStr(ys) {
      forall i | 1 <= i < |all| ensures all[i].JStr? {
        assert all[i] == ys[i - 1];
      }
    }
    if AllStr(all) {
      assert all[0] == x;
      forall i | 0 <= i < |ys| ensures ys[i].JStr? {
        assert all[i + 1] == ys[i];
      }
    }
  }

  lemma {:induction false} SpacedStrs(parts: seq<Json>)
    ensures AllStr(Spaced(parts)) <==> AllStr(parts)
    decreases |parts|
  {
    if |parts| > 0 {
      var tail := parts[1..];
      SpacedStrs(tail);
      var rest := Spaced(tail);
      assert Spaced(parts) == [parts[0]] + ([JStr("")] + rest);
      AllStrCons(JStr(""), rest);
      AllStrCons(parts[0], [JStr("")] + rest);
      assert parts == [parts[0]] + tail;
      AllStrCons(parts[0], tail);
    }
  }

  lemma {:induction false} SpacedTextsOf(parts: seq<Json>)
    requires AllStr(parts)
    ensures AllStr(Spaced(parts)) && Texts(Spaced(parts)) == SpacedTexts(Texts(parts))
    decreases |parts|
  {
    SpacedStrs(parts);
    if |parts| > 0 {
      var tail := parts[1..];
      assert parts == [parts[0]] + tail;
      AllStrCons(parts[0], tail);
      SpacedTextsOf(tail);
      var rest := Spaced(tail);
      var s := [parts[0], JStr("")] + rest;
      assert s == Spaced(parts);
      assert s[1..][1..] == rest;
      assert Texts(s) == [parts[0].s, ""] + Texts(rest);
      assert Texts(parts)[1..] == Texts(tail);
    }
  }

  function SpacedTexts(texts: seq<string>): (r: seq<string>)
    ensures |r| == 2 * |texts|
  {
    if |texts| == 0 then [] else [texts[0], ""] + SpacedTexts(texts[1..])
  }

  /** The sections with a blank line after each, joined by newlines, are the
      sections separated by blank lines plus one final line break. */
  lemma {:induction false} SpacedJoin(texts: seq<string>)
    requires |texts| > 0
    ensures Join("\n", SpacedTexts(texts)) == Join("\n\n", texts) + "\n"
    decreases |texts|
  {
    if |texts| == 1 {
      assert SpacedTexts(texts) == [texts[0], ""];
    } else {
      var rest := SpacedTexts(texts[1..]);
      SpacedJoin(texts[1..]);
      JoinAppend("\n", [texts[0], ""], rest);
      assert SpacedTexts(texts) == [texts[0], ""] + rest;
      assert Join("\n", [texts[0], ""]) == texts[0] + "\n" + "";
      calc {
        Join("\n", SpacedTexts(texts));
        texts[0] + "\n" + "" + "\n" + (Join("\n\n", texts[1..]) + "\n");
        texts[0] + "\n\n" + Join("\n\n", texts[1..]) + "\n";
        Join("\n\n", texts) + "\n";
      }
    }
  }

  /** The report lines join to a str exactly when every section is a str. */
  lemma LinesAllStr(parts: seq<Json>, timestamp: string)
    ensures AllStr(Lines(parts, timestamp)) <==> AllStr(parts)
  {
    var lines := Lines(parts, timestamp);
    var spaced := Spaced(parts);
    SpacedAllStr(parts);
    assert forall i :: 0 <= i < |spaced| ==> lines[3 + i] == spaced[i];
    if AllStr(parts) {
      forall i | 0 <= i < |lines| ensures lines[i].JStr? {
        if 3 <= i < 3 + |spaced| {
          assert lines[i] == spaced[i - 3];
        }
      }
    } else {
      var i :| 0 <= i < |spaced| && !spaced[i].JStr?;
      assert !lines[3 + i].JStr?;
    }
  }

  /** The closing lines of the report: the rule, the generation time and
      the signature. */
  function Footer(timestamp: string): string {
    S.Rule(55) + "\n" + Stamp(timestamp) + "\n" + Signature
  }

  /** The text of the report lines, once they are all strs. */
  lemma LinesText(parts: seq<Json>, timestamp: string)
    requires AllStr(parts) && |parts| > 0
    ensures AllStr(Lines(parts, timestamp))
    ensures Join("\n", Texts(Lines(parts, timestamp))) ==
      (Banner + "\n" + S.Rule(55)) + "\n\n" + Join("\n\n", Texts(parts)) + "\n\n" + Footer(timestamp)
  {
    var rule := S.Rule(55);
    FrameTexts(parts, Banner, rule, Stamp(timestamp), Signature);
    FrameJoin(Banner, rule, Texts(parts), Stamp(timestamp), Signature);
  }

  lemma FrameTexts(parts: seq<Json>, banner: string, rule: string, stamp: string, signature: string)
    requires AllStr(parts)
    ensures var frame := [JStr(banner), JStr(rule), JStr("")] + Spaced(parts) + [JStr(rule), JStr(stamp), JStr(signature)];
      && AllStr(frame)
      && Texts(frame) == [banner, rule, ""] + SpacedTexts(Texts(parts)) + [rule, stamp, signature]
  {
    SpacedAllStr(parts);
    var head := [JStr(banner), JStr(rule), JStr("")];
    var spaced := Spaced(parts);
    var tail := [JStr(rule), JStr(stamp), JStr(signature)];
    TextsThree(banner, rule, "");
    TextsThree(rule, stamp, signature);
    TextsAppend(head, spaced);
    TextsAppend(head + spaced, tail);
  }

  lemma TextsThree(a: string, b: string, c: string)
    ensures AllStr([JStr(a), JStr(b), JStr(c)])
    ensures Texts([JStr(a), JStr(b), JStr(c)]) == [a, b, c]
  {
    var t := Texts([JStr(a), JStr(b), JStr(c)]);
    assert t[0] == a && t[1] == b && t[2] == c;
  }

  /** Joining the framed section texts by newlines. */
  lemma FrameJoin(banner: string, rule: string, texts: seq<string>, stamp: string, signature: string)
    requires |texts| > 0
    ensures Join("\n", [banner, rule, ""] + SpacedTexts(texts) + [rule, stamp, signature]) ==
      (banner + "\n" + rule) + "\n\n" + Join("\n\n", texts) + "\n\n" + (rule + "\n" + stamp + "\n" + signature)
  {
    var head := [banner, rule, ""];
    var spaced := SpacedTexts(texts);
    var tail := [rule, stamp, signature];
    var top := banner + "\n" + rule;
    var body := Join("\n\n", texts);
    var bottom := rule + "\n" + stamp + "\n" + signature;
    JoinAppend("\n", head, spaced);
    JoinAppend("\n", head + spaced, tail);
    SpacedJoin(texts);
    JoinThree(banner, rule, "");
    JoinThree(rule, stamp, signature);
    assert Join("\n", head + spaced + tail) == (top + "\n" + "") + "\n" + (body + "\n") + "\n" + bottom;
    BreakAssoc(top, body, bottom);
  }

  lemma BreakAssoc(top: string, body: string, bottom: string)
    ensures (top + "\n" + "") + "\n" + (body + "\n") + "\n" + bottom == top + "\n\n" + body + "\n\n" + bottom
  {
    var nl: string := "\n";
    assert top + nl + "" == top + nl;
    assert nl + nl == "\n\n";
    calc {
      (top + nl + "") + nl + (body + nl) + nl + bottom;
      top + nl + nl + (body + nl) + nl + bottom;
      top + (nl + nl) + body + (nl + nl) + bottom;
    }
  }

  lemma JoinThree(a: string, b: string, c: string)
    ensures Join("\n", [a, b, c]) == a + "\n" + b + "\n" + c
  {
    assert [a, b, c][1..] == [b, c];
    assert [b, c][1..] == [c];
    assert Join("\n", [c]) == c;
    assert Join("\n", [b, c]) == b + "\n" + c;
  }

  /** A generated report is the banner and a rule, a blank line, the five
      sections separated by blank lines, a blank line, then the rule, the
      generation time and the signature; it exists exactly when every
      section rendered to a str. */
  lemma ReportLayout(b: Backend, c: Client, timestamp: string)
    ensures var collected := Collect(ReportSection(b), c, ReportTools);
      var r := GenerateReport(b, c, timestamp);
      && (r.report.Ok? <==> collected.parts.Ok? && AllStr(collected.parts.value))
      && (r.report.Ok? ==>
            r.report.value ==
              (Banner + "\n" + S.Rule(55)) + "\n\n" + Join("\n\n", Texts(collected.parts.value)) + "\n\n" + Footer(timestamp))
  {
    var collected := Collect(ReportSection(b), c, ReportTools);
    assert collected.parts.Ok? ==> |collected.parts.value| == |ReportTools|;
  }

  lemma TextsAppend(a: seq<Json>, b: seq<Json>)
    requires AllStr(a) && AllStr(b)
    ensures AllStr(a + b)
    ensures Texts(a + b) == Texts(a) + Texts(b)
  {
    assert AllStr(a + b) by {
      forall i | 0 <= i < |a + b| ensures (a + b)[i].JStr? {
        if i >= |a| {
          assert (a + b)[i] == b[i - |a|];
        }
      }
    }
    var t := Texts(a + b);
    assert forall i :: 0 <= i < |a + b| ==> (a + b)[i] == JStr(t[i]);
    assert forall i :: 0 <= i < |t| ==> t[i] == (Texts(a) + Texts(b))[i] by {
      forall i | 0 <= i < |t| ensures t[i] == (Texts(a) + Texts(b))[i] {
        if i < |a| {
          assert (a + b)[i] == a[i];
        } else {
          assert (a + b)[i] == b[i - |a|];
        }
      }
    }
  }

  /** A tool call that fails in transport costs only its own section, which
      shows its placeholder; the report carries on with the next tool. */
  lemma FailedCallShowsPlaceholder(t: Tool, b: Backend, request: Json)
    requires b.post(request).Failed?
    ensures SectionOf(t, Answer(b, request)) == Ok(JStr(Placeholder(t)))
  {
    TransportFailureIsMarker(b, request);
  }
}
