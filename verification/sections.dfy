/** The five `ReportGenerator._generate_*_section` functions, each applied to
    the value `call_tool` returned for its tool. Each returns the section's
    text, or the Python exception that evaluating it raises. */
module Sections {
  import opened PyValues

  const Warning: string := "\U{26A0}\U{FE0F}"
  const Tick: string := "\U{2705}"

  /** A row of `n` double horizontal bars. */
  function Rule(n: nat): (r: string)
    ensures |r| == n
    ensures forall i :: 0 <= i < n ==> r[i] == '\U{2550}'
  {
    seq(n, _ => '\U{2550}')
  }

  /** A title, a rule of the given width under it, and one body line. */
  function Block(title: string, width: nat, body: string): string {
    title + "\n" + Rule(width) + "\n" + body
  }

  /** The placeholder a section shows when its tool reported an error. */
  function Unavailable(title: string, width: nat): string {
    Block(title, width, Warning + " Data unavailable")
  }

  // ------------------------------------------------------------ occupancy

  const OccupancyTitle: string := "\U{1F4CA} OCCUPANCY STATISTICS"
  const OccupancyUnavailable: string := Unavailable(OccupancyTitle, 23)

  /** The value `data.get(key, 0)` yields for a dict. */
  function CountOr0(entries: seq<Entry>, key: string): Json {
    ValueOr(entries, key, JInt(0))
  }

  /** `_generate_occupancy_section`: the placeholder when the result holds
      `"error"`, otherwise total, occupied, available and rate, one per line
      in that order, each missing key shown as 0. */
  function OccupancySection(data: Json): (r: Outcome<string>)
    ensures Contains(data, ErrorKey) == Ok(true) ==> r == Ok(OccupancyUnavailable)
    ensures Contains(data, ErrorKey).Raise? ==> r == Raise(TypeError)
    ensures (data.JList? || data.JStr?) && Contains(data, ErrorKey) == Ok(false) ==> r == Raise(AttributeError)
    ensures data.JDict? && !HasKey(data.entries, ErrorKey) ==>
      r == Ok(Join("\n", [
        OccupancyTitle,
        Rule(23),
        "Total Capsules: " + Show(CountOr0(data.entries, "total")),
        "Occupied: " + Show(CountOr0(data.entries, "occupied")) + " capsules",
        "Available: " + Show(CountOr0(data.entries, "available")) + " capsules",
        "Occupancy Rate: " + Show(CountOr0(data.entries, "occupancyRate")) + "%"]))
  {
    var hasError :- Contains(data, ErrorKey);
    if hasError then Ok(OccupancyUnavailable)
    else
      var total :- Get(data, "total", JInt(0));
      var occupied := Get(data, "occupied", JInt(0)).value;
      var available := Get(data, "available", JInt(0)).value;
      var rate := Get(data, "occupancyRate", JInt(0)).value;
      // The f-string's six lines.
      var lines := [
        OccupancyTitle,
        Rule(23),
        "Total Capsules: " + Show(total),
        "Occupied: " + Show(occupied) + " capsules",
        "Available: " + Show(available) + " capsules",
        "Occupancy Rate: " + Show(rate) + "%"];
      Ok(Join("\n", lines))
  }

  /** No figure of the occupancy result prints with a line break. */
  predicate PlainFigures(entries: seq<Entry>) {
    && '\n' !in Show(CountOr0(entries, "total"))
    && '\n' !in Show(CountOr0(entries, "occupied"))
    && '\n' !in Show(CountOr0(entries, "available"))
    && '\n' !in Show(CountOr0(entries, "occupancyRate"))
  }

  /** The six lines of the occupancy text for the given figure texts. */
  function OccupancyText(total: string, occupied: string, available: string, rate: string): seq<string> {
    [OccupancyTitle,
     Rule(23),
     "Total Capsules: " + total,
     "Occupied: " + occupied + " capsules",
     "Available: " + available + " capsules",
     "Occupancy Rate: " + rate + "%"]
  }

  lemma OccupancyTextSplits(total: string, occupied: string, available: string, rate: string)
    requires '\n' !in total && '\n' !in occupied && '\n' !in available && '\n' !in rate
    ensures Split('\n', Join("\n", OccupancyText(total, occupied, available, rate))) == OccupancyText(total, occupied, available, rate)
  {
    var lines := OccupancyText(total, occupied, available, rate);
    assert '\n' !in OccupancyTitle;
    assert '\n' !in Rule(23);
    assert '\n' !in lines[2] && '\n' !in lines[3] && '\n' !in lines[4] && '\n' !in lines[5];
    SplitJoin(lines);
  }

  /** Read line by line, the occupancy section of a dict without `"error"`
      is exactly six lines: title, rule, then the total, occupied, available
      and rate figures in that order, each missing one shown as 0. */
  lemma OccupancyLines(data: Json)
    requires data.JDict? && !HasKey(data.entries, ErrorKey) && PlainFigures(data.entries)
    ensures OccupancySection(data).Ok?
    ensures var lines := Split('\n', OccupancySection(data).value);
      && |lines| == 6
      && lines[0] == OccupancyTitle && lines[1] == Rule(23)
      && lines[2] == "Total Capsules: " + Show(CountOr0(data.entries, "total"))
      && lines[3] == "Occupied: " + Show(CountOr0(data.entries, "occupied")) + " capsules"
      && lines[4] == "Available: " + Show(CountOr0(data.entries, "available")) + " capsules"
      && lines[5] == "Occupancy Rate: " + Show(CountOr0(data.entries, "occupancyRate")) + "%"
  {
    var total := Show(CountOr0(data.entries, "total"));
    var occupied := Show(CountOr0(data.entries, "occupied"));
    var available := Show(CountOr0(data.entries, "available"));
    var rate := Show(CountOr0(data.entries, "occupancyRate"));
    assert OccupancySection(data) == Ok(Join("\n", OccupancyText(total, occupied, available, rate)));
    OccupancyTextSplits(total, occupied, available, rate);
  }

  // ------------------------------------------------------------- capsules

  const CapsuleTitle: string := "\U{1F6CF}\U{FE0F} CAPSULE STATUS BY SECTION"
  const CapsuleUnavailable: string := Unavailable(CapsuleTitle, 27)

  /** The three keys of the `sections` dict. */
  datatype Tag = Back | Middle | Front

  /** The keys in the dict's insertion order, which is the output order. */
  const TagOrder: seq<Tag> := [Back, Middle, Front]

  function TagName(t: Tag): string {
    match t
    case Back => "back"
    case Middle => "middle"
    case Front => "front"
  }

  /** `section_name.upper() + " SECTION"`. */
  function TagTitle(t: Tag): string {
    match t
    case Back => "BACK SECTION"
    case Middle => "MIDDLE SECTION"
    case Front => "FRONT SECTION"
  }

  /** `capsule.get("section", "unknown")` looked up in the `sections` dict:
      a known tag, None for any other hashable value, a TypeError for a list
      or dict (unhashable), an AttributeError for a capsule that is not a
      dict. */
  function TagOf(capsule: Json): (r: Outcome<Option<Tag>>)
    ensures !capsule.JDict? ==> r == Raise(AttributeError)
    ensures forall t :: r == Ok(Some(t)) <==>
      capsule.JDict? && Lookup(capsule.entries, "section") == Some(JStr(TagName(t)))
    ensures capsule.JDict? && Lookup(capsule.entries, "section").None? ==> r == Ok(None)
  {
    var section :- Get(capsule, "section", JStr("unknown"));
    match section
    case JStr(s) =>
      Ok(if s == "back" then Some(Back)
         else if s == "middle" then Some(Middle)
         else if s == "front" then Some(Front)
         else None)
    case JList(_) => Raise(TypeError)
    case JDict(_) => Raise(TypeError)
    case _ => Ok(None)
  }

  /** A section that is present but names no known tag (another str, None,
      a bool, a number) drops the capsule; only an unhashable list or dict
      section raises, with a TypeError. */
  lemma TagOfDropsOthers(capsule: Json)
    requires capsule.JDict?
    ensures var section := ValueOr(capsule.entries, "section", JStr("unknown"));
      && (TagOf(capsule).Raise? <==> section.JList? || section.JDict?)
      && (TagOf(capsule).Raise? ==> TagOf(capsule).exc == TypeError)
      && (TagOf(capsule) == Ok(None) <==> !section.JList? && !section.JDict? && section !in {JStr("back"), JStr("middle"), JStr("front")})
  {
  }

  /** The capsules of `cs` tagged `t`, in input order: the reference the
      grouping loop is checked against. */
  function Tagged(cs: seq<Json>, t: Tag): (r: seq<Json>)
    ensures |r| <= |cs|
    decreases |cs|
  {
    if |cs| == 0 then []
    else (if TagOf(cs[0]) == Ok(Some(t)) then [cs[0]] else []) + Tagged(cs[1..], t)
  }

  /** `Tagged` keeps exactly the capsules of `cs` whose tag is `t`. */
  lemma {:induction false} TaggedMembers(cs: seq<Json>, t: Tag)
    ensures forall x :: x in Tagged(cs, t) <==> x in cs && TagOf(x) == Ok(Some(t))
    decreases |cs|
  {
    if |cs| > 0 {
      TaggedMembers(cs[1..], t);
      assert forall x :: x in cs <==> x == cs[0] || x in cs[1..];
    }
  }

  lemma ConcatAssoc<T>(a: seq<T>, b: seq<T>, c: seq<T>)
    ensures a + (b + c) == (a + b) + c
  {
  }

  lemma {:induction false} TaggedSnoc(cs: seq<Json>, c: Json, t: Tag)
    ensures Tagged(cs + [c], t) == Tagged(cs, t) + (if TagOf(c) == Ok(Some(t)) then [c] else [])
    decreases |cs|
  {
    if |cs| == 0 {
      assert cs + [c] == [c];
    } else {
      var first := if TagOf(cs[0]) == Ok(Some(t)) then [cs[0]] else [];
      var last := if TagOf(c) == Ok(Some(t)) then [c] else [];
      assert (cs + [c])[0] == cs[0];
      assert (cs + [c])[1..] == cs[1..] + [c];
      TaggedSnoc(cs[1..], c, t);
      ConcatAssoc(first, Tagged(cs[1..], t), last);
    }
  }

  /** The `sections` dict after the loop: one bucket per tag. */
  datatype Buckets = Buckets(back: seq<Json>, middle: seq<Json>, front: seq<Json>) {
    function Of(t: Tag): seq<Json> {
      match t
      case Back => back
      case Middle => middle
      case Front => front
    }

    /** `sections[t].append(c)`. */
    function Add(t: Tag, c: Json): (r: Buckets)
      ensures r.Of(t) == Of(t) + [c]
      ensures forall u :: u != t ==> r.Of(u) == Of(u)
    {
      match t
      case Back => this.(back := back + [c])
      case Middle => this.(middle := middle + [c])
      case Front => this.(front := front + [c])
    }
  }

  /** The grouping loop, one capsule at a time in input order: a capsule with
      a known tag is appended to its bucket, any other is dropped, and the
      first capsule whose tag cannot be read stops the loop with its
      exception. */
  function Classify(cs: seq<Json>): (r: Outcome<Buckets>)
    ensures r.Ok? <==> forall i :: 0 <= i < |cs| ==> TagOf(cs[i]).Ok?
    ensures r.Ok? ==> forall t :: r.value.Of(t) == Tagged(cs, t)
    decreases |cs|
  {
    if |cs| == 0 then Ok(Buckets([], [], []))
    else
      var front := cs[..|cs| - 1];
      var last := cs[|cs| - 1];
      assert cs == front + [last];
      assert forall i :: 0 <= i < |front| ==> front[i] == cs[i];
      var b :- Classify(front);
      var tag :- TagOf(last);
      var r := if tag.Some? then b.Add(tag.value, last) else b;
      assert forall t :: r.Of(t) == Tagged(cs, t) by {
        forall t ensures r.Of(t) == Tagged(cs, t) {
          TaggedSnoc(front, last, t);
        }
      }
      Ok(r)
  }

  /** A grouping loop that raises stops at the first capsule whose tag
      cannot be read, with that capsule's exception. */
  lemma {:induction false} ClassifyRaisesFirst(cs: seq<Json>)
    ensures Classify(cs).Raise? ==>
      exists i :: 0 <= i < |cs| && TagOf(cs[i]) == Raise(Classify(cs).exc) && forall j :: 0 <= j < i ==> TagOf(cs[j]).Ok?
    decreases |cs|
  {
    if |cs| > 0 && Classify(cs).Raise? {
      var front := cs[..|cs| - 1];
      var last := cs[|cs| - 1];
      assert forall i :: 0 <= i < |front| ==> front[i] == cs[i];
      if Classify(front).Raise? {
        ClassifyRaisesFirst(front);
        var i :| 0 <= i < |front| && TagOf(front[i]) == Raise(Classify(front).exc) && forall j :: 0 <= j < i ==> TagOf(front[j]).Ok?;
        assert TagOf(cs[i]) == Raise(Classify(cs).exc);
      } else {
        assert TagOf(last) == Raise(Classify(cs).exc);
        assert forall j :: 0 <= j < |front| ==> TagOf(cs[j]).Ok?;
      }
    }
  }

  /** `[c["number"] for c in group if bool(c.get("isAvailable")) == available]`,
      evaluated left to right. */
  function Numbers(group: seq<Json>, available: bool): (r: Outcome<seq<Json>>)
    // The comprehension runs through exactly when every capsule is a dict
    // and every capsule it selects has a number.
    ensures r.Ok? <==> forall i :: 0 <= i < |group| ==> Listable(group[i], available)
    ensures r.Raise? ==> r.exc == AttributeError || r.exc == KeyError
    decreases |group|
  {
    if |group| == 0 then Ok([])
    else
      var flag :- Get(group[0], "isAvailable", JNull);
      var head :- if Truthy(flag) == available then NumberOf(group[0]) else Ok([]);
      var rest :- Numbers(group[1..], available);
      assert forall i :: 1 <= i < |group| ==> group[i] == group[1..][i - 1];
      Ok(head + rest)
  }

  /** The numbers listed are those of the selected capsules, one each, in
      input order. */
  lemma {:induction false} NumbersAreSelected(group: seq<Json>, available: bool)
    ensures var r := Numbers(group, available);
      r.Ok? ==>
        && |r.value| == |SelectedOf(group, available)|
        && forall k :: 0 <= k < |r.value| ==> Ok(r.value[k]) == Index(SelectedOf(group, available)[k], "number")
    decreases |group|
  {
    if |group| > 0 && Numbers(group, available).Ok? {
      NumbersAreSelected(group[1..], available);
      var rest := Numbers(group[1..], available).value;
      var selected := SelectedOf(group[1..], available);
      if Selected(group[0], available) {
        var n := Index(group[0], "number").value;
        assert Numbers(group, available).value == [n] + rest;
        assert SelectedOf(group, available) == [group[0]] + selected;
        ImageCons(c => Index(c, "number"), group[0], selected, n, rest);
      } else {
        assert Numbers(group, available).value == rest;
        assert SelectedOf(group, available) == selected;
      }
    }
  }

  /** The capsules the comprehension's filter keeps, in input order. */
  function SelectedOf(group: seq<Json>, available: bool): (r: seq<Json>)
    ensures forall k :: 0 <= k < |r| ==> Selected(r[k], available)
    decreases |group|
  {
    if |group| == 0 then []
    else (if Selected(group[0], available) then [group[0]] else []) + SelectedOf(group[1..], available)
  }

  /** The comprehension's filter `bool(c.get("isAvailable")) == available`
      holds of capsule `c`. */
  predicate Selected(c: Json, available: bool) {
    c.JDict? && Truthy(ValueOr(c.entries, "isAvailable", JNull)) == available
  }

  /** Capsule `c` passes through the comprehension without raising. */
  ghost predicate Listable(c: Json, available: bool) {
    c.JDict? && (Selected(c, available) ==> HasKey(c.entries, "number"))
  }

  function NumberOf(capsule: Json): Outcome<seq<Json>> {
    var n :- Index(capsule, "number");
    Ok([n])
  }

  /** `[c["number"] for c in group]`: every capsule's number, in order. */
  function AllNumbers(group: seq<Json>): (r: Outcome<seq<Json>>)
    ensures r.Ok? ==> |r.value| == |group|
    decreases |group|
  {
    if |group| == 0 then Ok([])
    else
      var n :- Index(group[0], "number");
      var rest :- AllNumbers(group[1..]);
      Ok([n] + rest)
  }

  /** `c` is `a` and `b` merged without reordering either. */
  ghost predicate Interleaves<T>(a: seq<T>, b: seq<T>, c: seq<T>)
    decreases |c|
  {
    if |c| == 0 then a == [] && b == []
    else
      || (|a| > 0 && a[0] == c[0] && Interleaves(a[1..], b, c[1..]))
      || (|b| > 0 && b[0] == c[0] && Interleaves(a, b[1..], c[1..]))
  }

  /** The Occupied and Available lists of a group split its capsule numbers
      between them, each keeping input order, and together have as many
      entries as the group has capsules. */
  lemma {:induction false} OccupiedAvailablePartition(group: seq<Json>)
    requires Numbers(group, false).Ok? && Numbers(group, true).Ok?
    ensures AllNumbers(group).Ok?
    ensures Interleaves(Numbers(group, false).value, Numbers(group, true).value, AllNumbers(group).value)
    ensures |Numbers(group, false).value| + |Numbers(group, true).value| == |group|
    decreases |group|
  {
    if |group| > 0 {
      var flag := Get(group[0], "isAvailable", JNull).value;
      OccupiedAvailablePartition(group[1..]);
      var occ := Numbers(group[1..], false).value;
      var avail := Numbers(group[1..], true).value;
      var n := Index(group[0], "number").value;
      if Truthy(flag) {
        assert Numbers(group, true).value == [n] + avail;
        assert Numbers(group, false).value == occ;
        assert ([n] + avail)[1..] == avail;
      } else {
        assert Numbers(group, false).value == [n] + occ;
        assert Numbers(group, true).value == avail;
        assert ([n] + occ)[1..] == occ;
      }
      assert AllNumbers(group).value == [n] + AllNumbers(group[1..]).value;
      assert ([n] + AllNumbers(group[1..]).value)[1..] == AllNumbers(group[1..]).value;
    }
  }

  /** `', '.join(numbers) if numbers else 'None'`. */
  function NumberList(numbers: seq<Json>): (r: Outcome<string>)
    ensures |numbers| == 0 ==> r == Ok("None")
    ensures |numbers| > 0 ==> (r.Ok? <==> AllStr(numbers))
    ensures |numbers| > 0 && r.Ok? ==> r.value == Join(", ", Texts(numbers))
  {
    if |numbers| == 0 then Ok("None") else JoinJson(", ", numbers)
  }

  function GroupHeader(t: Tag, size: nat): string {
    TagTitle(t) + " (" + NatToString(size) + " capsules):"
  }

  /** The four lines one non-empty group contributes: its header with the
      group size, the Occupied line, the Available line, a blank line. */
  function GroupLines(t: Tag, group: seq<Json>): (r: Outcome<seq<string>>)
    ensures r.Ok? ==> Numbers(group, false).Ok? && Numbers(group, true).Ok?
    ensures r.Ok? ==> NumberList(Numbers(group, false).value).Ok? && NumberList(Numbers(group, true).value).Ok?
    ensures r.Ok? ==> r.value == [
      GroupHeader(t, |group|),
      "  Occupied: " + NumberList(Numbers(group, false).value).value,
      "  Available: " + NumberList(Numbers(group, true).value).value,
      ""]
  {
    var occupied :- Numbers(group, false);
    var available :- Numbers(group, true);
    var occupiedText :- NumberList(occupied);
    var availableText :- NumberList(available);
    Ok([GroupHeader(t, |group|), "  Occupied: " + occupiedText, "  Available: " + availableText, ""])
  }

  /** The tags among `tags` whose bucket is non-empty, in order. */
  function Emitted(b: Buckets, tags: seq<Tag>): (r: seq<Tag>)
    ensures forall t :: t in r <==> t in tags && |b.Of(t)| > 0
  {
    if |tags| == 0 then []
    else (if |b.Of(tags[0])| > 0 then [tags[0]] else []) + Emitted(b, tags[1..])
  }

  /** The block of bucket `t`, or the exception rendering it raises. */
  function Rendered(b: Buckets, t: Tag): Outcome<seq<string>> {
    GroupLines(t, b.Of(t))
  }

  /** The output loop over the buckets in order: an empty bucket is skipped,
      every other contributes its block of four lines, headed by its size. */
  function GroupBlocks(b: Buckets, tags: seq<Tag>): (r: Outcome<seq<seq<string>>>)
    ensures r.Ok? ==> |r.value| == |Emitted(b, tags)|
    decreases |tags|
  {
    if |tags| == 0 then Ok([])
    else if |b.Of(tags[0])| == 0 then
      assert Emitted(b, tags) == Emitted(b, tags[1..]);
      GroupBlocks(b, tags[1..])
    else
      var lines :- GroupLines(tags[0], b.Of(tags[0]));
      var rest :- GroupBlocks(b, tags[1..]);
      assert Emitted(b, tags) == [tags[0]] + Emitted(b, tags[1..]);
      Ok([lines] + rest)
  }

  /** `blocks` holds, position by position, the rendering of each tag's bucket. */
  predicate BlocksOf(b: Buckets, ts: seq<Tag>, blocks: seq<seq<string>>) {
    |blocks| == |ts| && forall k :: 0 <= k < |ts| ==> Ok(blocks[k]) == Rendered(b, ts[k])
  }

  /** A pointwise image extends by one element at the front. */
  lemma ImageCons<T, U>(f: T -> Outcome<U>, t: T, ts: seq<T>, u: U, us: seq<U>)
    requires Ok(u) == f(t)
    requires |us| == |ts| && forall k :: 0 <= k < |ts| ==> Ok(us[k]) == f(ts[k])
    ensures |[u] + us| == |[t] + ts|
    ensures forall k :: 0 <= k < |[t] + ts| ==> Ok(([u] + us)[k]) == f(([t] + ts)[k])
  {
    forall k | 0 <= k < |[t] + ts| ensures Ok(([u] + us)[k]) == f(([t] + ts)[k]) {
      if k > 0 {
        assert ([u] + us)[k] == us[k - 1] && ([t] + ts)[k] == ts[k - 1];
      }
    }
  }

  /** The same, for a list taken apart into its head and its tail. */
  lemma ImageHeadTail<T, U>(f: T -> Outcome<U>, ts: seq<T>, u: U, us: seq<U>)
    requires |ts| > 0 && Ok(u) == f(ts[0])
    requires |us| == |ts| - 1 && forall k :: 0 <= k < |us| ==> Ok(us[k]) == f(ts[1..][k])
    ensures forall k :: 0 <= k < |ts| ==> Ok(([u] + us)[k]) == f(ts[k])
  {
    forall k | 0 <= k < |ts| ensures Ok(([u] + us)[k]) == f(ts[k]) {
      if k > 0 {
        assert ([u] + us)[k] == us[k - 1] && ts[k] == ts[1..][k - 1];
      }
    }
  }

  /** Each block is exactly the rendering of its own bucket. */
  lemma {:induction false} GroupBlocksRendered(b: Buckets, tags: seq<Tag>)
    ensures GroupBlocks(b, tags).Ok? ==> BlocksOf(b, Emitted(b, tags), GroupBlocks(b, tags).value)
    ensures var r := GroupBlocks(b, tags);
      r.Ok? ==> forall k :: 0 <= k < |r.value| ==>
        && |r.value[k]| == 4
        && r.value[k][0] == GroupHeader(Emitted(b, tags)[k], |b.Of(Emitted(b, tags)[k])|)
    decreases |tags|
  {
    if |tags| > 0 && GroupBlocks(b, tags).Ok? {
      GroupBlocksRendered(b, tags[1..]);
      var emitted := Emitted(b, tags[1..]);
      if |b.Of(tags[0])| > 0 {
        var rest := GroupBlocks(b, tags[1..]).value;
        var render := (t: Tag) => Rendered(b, t);
        assert GroupBlocks(b, tags).value == [Rendered(b, tags[0]).value] + rest;
        assert Emitted(b, tags) == [tags[0]] + emitted;
        ImageCons(render, tags[0], emitted, Rendered(b, tags[0]).value, rest);
      } else {
        assert Emitted(b, tags) == emitted;
      }
    }
    var r := GroupBlocks(b, tags);
    if r.Ok? {
      var emitted := Emitted(b, tags);
      forall k | 0 <= k < |r.value|
        ensures |r.value[k]| == 4 && r.value[k][0] == GroupHeader(emitted[k], |b.Of(emitted[k])|)
      {
        assert Ok(r.value[k]) == GroupLines(emitted[k], b.Of(emitted[k]));
      }
    }
  }

  lemma MembersHeadTail<T>(xs: seq<T>)
    requires |xs| > 0
    ensures forall x :: x in xs <==> x == xs[0] || x in xs[1..]
  {
    assert xs == [xs[0]] + xs[1..];
  }

  /** The loop runs through exactly when the bucket of every tag it visits
      renders, empty buckets being skipped. */
  lemma {:induction false} GroupBlocksSucceed(b: Buckets, tags: seq<Tag>)
    ensures GroupBlocks(b, tags).Ok? <==> forall t :: t in tags && |b.Of(t)| > 0 ==> Rendered(b, t).Ok?
    decreases |tags|
  {
    if |tags| > 0 {
      GroupBlocksSucceed(b, tags[1..]);
      assert GroupBlocks(b, tags).Ok? <==>
        (|b.Of(tags[0])| > 0 ==> Rendered(b, tags[0]).Ok?) && GroupBlocks(b, tags[1..]).Ok?;
      MembersHeadTail(tags);
    }
  }

  /** The blocks' lines, one block after another. */
  function Flatten(blocks: seq<seq<string>>): seq<string> {
    if |blocks| == 0 then [] else blocks[0] + Flatten(blocks[1..])
  }

  const CapsuleHead: seq<string> := [CapsuleTitle, Rule(27), ""]

  /** `_generate_capsule_section`: the placeholder for an errored or non-list
      result; otherwise the non-empty groups in the order back, middle,
      front, the joined text stripped of trailing whitespace. */
  function CapsuleSection(data: Json): (r: Outcome<string>)
    ensures Contains(data, ErrorKey) == Ok(true) ==> r == Ok(CapsuleUnavailable)
    ensures Contains(data, ErrorKey).Raise? ==> r == Raise(TypeError)
    ensures (data.JDict? || data.JStr?) ==> r.Ok? && r.value == CapsuleUnavailable
    ensures data.JList? && Contains(data, ErrorKey) == Ok(false) ==>
      (r.Ok? <==> Classify(data.items).Ok? && GroupBlocks(Classify(data.items).value, TagOrder).Ok?)
    ensures data.JList? && Contains(data, ErrorKey) == Ok(false) && r.Ok? ==>
      r.value == RStrip(Join("\n", CapsuleHead + Flatten(GroupBlocks(Classify(data.items).value, TagOrder).value)))
  {
    var hasError :- Contains(data, ErrorKey);
    if hasError || !data.JList? then Ok(CapsuleUnavailable)
    else
      var b :- Classify(data.items);
      var blocks :- GroupBlocks(b, TagOrder);
      Ok(RStrip(Join("\n", CapsuleHead + Flatten(blocks))))
  }

  // --------------------------------------------------------------- guests

  const GuestTitle: string := "\U{1F465} GUEST INFORMATION"
  const GuestUnavailable: string := Unavailable(GuestTitle, 19)

  function GuestReport(count: nat): string {
    Block(GuestTitle, 19, "Checked-in Guests: " + NatToString(count))
  }

  /** The guest count: `len(data)` of a paginated wrapper, the length of a
      bare list, 0 for any other shape. */
  function GuestCount(guests: Json): (r: Outcome<nat>)
    ensures guests.JList? ==> r == Ok(|guests.items|)
    ensures guests.JDict? && HasKey(guests.entries, "data") ==> r == Len(Lookup(guests.entries, "data").value)
    ensures guests.JDict? && !HasKey(guests.entries, "data") ==> r == Ok(0)
    ensures !(guests.JDict? || guests.JList?) ==> r == Ok(0)
  {
    match guests
    case JDict(entries) =>
      (match Lookup(entries, "data")
       case Some(d) => Len(d)
       case None => Ok(0))
    case JList(items) => Ok(|items|)
    case _ => Ok(0)
  }

  /** `_generate_guest_section`. */
  function GuestSection(data: Json): (r: Outcome<string>)
    ensures Contains(data, ErrorKey) == Ok(true) ==> r == Ok(GuestUnavailable)
    ensures Contains(data, ErrorKey).Raise? ==> r == Raise(TypeError)
    ensures Contains(data, ErrorKey) == Ok(false) ==>
      r == (match GuestCount(data) case Ok(n) => Ok(GuestReport(n)) case Raise(e) => Raise(e))
  {
    var hasError :- Contains(data, ErrorKey);
    if hasError then Ok(GuestUnavailable)
    else
      var n :- GuestCount(data);
      Ok(GuestReport(n))
  }

  /** A bare list of n guests and the wrapper `{"data": [...]}` around the
      same list both display n, unless the bare list itself holds the string
      "error", which the error guard takes for an error. */
  lemma ListAndWrapperAgree(items: seq<Json>)
    requires JStr(ErrorKey) !in items
    ensures GuestSection(JList(items)) == Ok(GuestReport(|items|))
    ensures GuestSection(JDict([Entry("data", JList(items))])) == Ok(GuestReport(|items|))
  {
    var wrapper := JDict([Entry("data", JList(items))]);
    assert !HasKey(wrapper.entries, ErrorKey);
    assert wrapper.entries[0].key == "data";
  }

  // -------------------------------------------------------------- overdue

  const OverdueTitle: string := Warning + " OVERDUE GUESTS"
  const OverdueUnavailable: string := Unavailable(OverdueTitle, 19)
  const NoOverdue: string := Block(OverdueTitle, 19, Tick + " No overdue guests")

  /** The first four lines of a non-empty overdue list. */
  function OverdueHeader(count: nat): seq<string> {
    [OverdueTitle, Rule(19), Warning + " " + NatToString(count) + " guest(s) past expected checkout:", ""]
  }

  /** The line for one overdue guest, with `Unknown`, `N/A` and `N/A` for a
      missing name, capsule and expected date. */
  function GuestLine(guest: Json): (r: Outcome<string>)
    ensures r.Ok? <==> guest.JDict?
    ensures r.Ok? ==>
      r.value == "  - " + Show(ValueOr(guest.entries, "name", JStr("Unknown")))
                 + " (Capsule " + Show(ValueOr(guest.entries, "capsuleNumber", JStr("N/A")))
                 + ") - Expected: " + Show(ValueOr(guest.entries, "expectedCheckoutDate", JStr("N/A")))
  {
    var name :- Get(guest, "name", JStr("Unknown"));
    var capsule := Get(guest, "capsuleNumber", JStr("N/A")).value;
    var expected := Get(guest, "expectedCheckoutDate", JStr("N/A")).value;
    Ok("  - " + Show(name) + " (Capsule " + Show(capsule) + ") - Expected: " + Show(expected))
  }

  /** The loop over the overdue guests: one line each, in input order; the
      first guest that is not a dict raises an AttributeError. */
  function GuestLines(guests: seq<Json>): (r: Outcome<seq<string>>)
    ensures r.Ok? <==> forall i :: 0 <= i < |guests| ==> guests[i].JDict?
    ensures r.Raise? ==> r.exc == AttributeError
    ensures r.Ok? ==> |r.value| == |guests|
    decreases |guests|
  {
    if |guests| == 0 then Ok([])
    else
      var line :- GuestLine(guests[0]);
      var rest :- GuestLines(guests[1..]);
      assert forall i :: 1 <= i < |guests| ==> guests[i] == guests[1..][i - 1];
      Ok([line] + rest)
  }

  /** The i-th line is the line of the i-th guest. */
  lemma {:induction false} GuestLinesEach(guests: seq<Json>)
    ensures GuestLines(guests).Ok? ==>
      forall i :: 0 <= i < |guests| ==> Ok(GuestLines(guests).value[i]) == GuestLine(guests[i])
    decreases |guests|
  {
    if |guests| > 0 && GuestLines(guests).Ok? {
      GuestLinesEach(guests[1..]);
      var line := GuestLine(guests[0]).value;
      var rest := GuestLines(guests[1..]).value;
      assert GuestLines(guests).value == [line] + rest;
      ImageHeadTail(GuestLine, guests, line, rest);
    }
  }

  /** `_generate_overdue_section`: the placeholder on an error, a distinct
      "no overdue guests" message for an empty result, otherwise a header
      stating the count followed by one line per guest. */
  function OverdueSection(data: Json): (r: Outcome<string>)
    ensures Contains(data, ErrorKey) == Ok(true) ==> r == Ok(OverdueUnavailable)
    ensures Contains(data, ErrorKey).Raise? ==> r == Raise(TypeError)
    ensures data == JList([]) || data == JDict([]) || data == JStr("") ==> r == Ok(NoOverdue)
    ensures data.JList? && |data.items| > 0 && JStr(ErrorKey) !in data.items ==>
      && (r.Ok? <==> forall i :: 0 <= i < |data.items| ==> data.items[i].JDict?)
      && (r.Ok? ==> r.value == Join("\n", OverdueHeader(|data.items|) + GuestLines(data.items).value))
    ensures (data.JDict? || data.JStr?) && Truthy(data) && Contains(data, ErrorKey) == Ok(false) ==>
      r == Raise(AttributeError)
  {
    var hasError :- Contains(data, ErrorKey);
    if hasError then Ok(OverdueUnavailable)
    else if !Truthy(data) then Ok(NoOverdue)
    else
      var n := Len(data).value;
      if n == 0 then Ok(NoOverdue)
      else
        var guests := Elements(data).value;
        assert data.JDict? ==> guests[0] == JStr(data.entries[0].key);
        assert data.JStr? ==> guests[0] == JStr([data.s[0]]);
        var lines :- GuestLines(guests);
        Ok(Join("\n", OverdueHeader(n) + lines))
  }

  /** The empty-list message and the error placeholder are distinct texts. */
  lemma NoOverdueIsNotUnavailable()
    ensures NoOverdue != OverdueUnavailable
  {
    var i := |OverdueTitle| + 1 + 19 + 1;
    assert NoOverdue[i] == Tick[0];
    assert OverdueUnavailable[i] == Warning[0];
  }

  lemma OverdueHeaderHasNoBreak(n: nat)
    ensures forall i :: 0 <= i < 4 ==> '\n' !in OverdueHeader(n)[i]
  {
    assert '\n' !in NatToString(n);
    assert '\n' !in OverdueTitle && '\n' !in Rule(19);
  }

  lemma NoBreakLines(header: seq<string>, body: seq<string>)
    requires forall i :: 0 <= i < |header| ==> '\n' !in header[i]
    requires forall i :: 0 <= i < |body| ==> '\n' !in body[i]
    ensures forall i :: 0 <= i < |header + body| ==> '\n' !in (header + body)[i]
  {
    forall i | 0 <= i < |header + body| ensures '\n' !in (header + body)[i] {
      if i >= |header| {
        assert (header + body)[i] == body[i - |header|];
      }
    }
  }

  /** Read line by line, a non-empty overdue section is its four header lines
      followed by exactly one line per guest, in input order, provided no
      rendered field holds a line break. */
  lemma {:induction false} OverdueOneLinePerGuest(items: seq<Json>)
    requires |items| > 0 && JStr(ErrorKey) !in items
    requires forall i :: 0 <= i < |items| ==> GuestLine(items[i]).Ok? && '\n' !in GuestLine(items[i]).value
    ensures OverdueSection(JList(items)).Ok?
    ensures var lines := Split('\n', OverdueSection(JList(items)).value);
      && |lines| == 4 + |items|
      && lines[..4] == OverdueHeader(|items|)
      && forall i :: 0 <= i < |items| ==> Ok(lines[4 + i]) == GuestLine(items[i])
  {
    var guestLines := GuestLines(items).value;
    GuestLinesEach(items);
    var header := OverdueHeader(|items|);
    assert OverdueSection(JList(items)) == Ok(Join("\n", header + guestLines));
    OverdueHeaderHasNoBreak(|items|);
    assert forall i :: 0 <= i < |guestLines| ==> '\n' !in guestLines[i] by {
      forall i | 0 <= i < |guestLines| ensures '\n' !in guestLines[i] {
        assert Ok(guestLines[i]) == GuestLine(items[i]);
      }
    }
    NoBreakLines(header, guestLines);
    SplitJoin(header + guestLines);
    assert (header + guestLines)[..4] == header;
    forall i | 0 <= i < |items|
      ensures Ok((header + guestLines)[4 + i]) == GuestLine(items[i])
    {
      assert (header + guestLines)[4 + i] == guestLines[i];
    }
  }

  // ---------------------------------------------------------- maintenance

  const MaintenanceTitle: string := "\U{1F527} MAINTENANCE STATUS"
  const MaintenanceUnavailable: string := Unavailable(MaintenanceTitle, 23)
  const NoIssues: string := Block(MaintenanceTitle, 23, Tick + " No active maintenance issues")

  /** `_generate_maintenance_section`: the text the server formatted is passed
      through verbatim, whether it is wrapped as `{"raw": text}` or is a bare
      str; anything else shows the fixed "no active issues" block. The
      value under `"raw"` is returned as it is, str or not. */
  function MaintenanceSection(data: Json): (r: Outcome<Json>)
    ensures Contains(data, ErrorKey) == Ok(true) ==> r == Ok(JStr(MaintenanceUnavailable))
    ensures Contains(data, ErrorKey).Raise? ==> r == Raise(TypeError)
    ensures data.JDict? && !HasKey(data.entries, ErrorKey) && HasKey(data.entries, "raw") ==>
      r == Ok(Lookup(data.entries, "raw").value)
    ensures data.JStr? && !IsSubstring(ErrorKey, data.s) ==> r == Ok(data)
    ensures data.JDict? && !HasKey(data.entries, ErrorKey) && !HasKey(data.entries, "raw") ==>
      r == Ok(JStr(NoIssues))
    ensures data.JList? && Contains(data, ErrorKey) == Ok(false) ==> r == Ok(JStr(NoIssues))
  {
    var hasError :- Contains(data, ErrorKey);
    if hasError then Ok(JStr(MaintenanceUnavailable))
    else if data.JDict? && Lookup(data.entries, "raw").Some? then Ok(Lookup(data.entries, "raw").value)
    else if data.JStr? then Ok(data)
    else Ok(JStr(NoIssues))
  }

  /** The `{"raw": text}` fallback of undecodable tool output reaches the
      report verbatim, even when the text mentions "error". */
  lemma RawTextPassesThrough(text: string)
    ensures MaintenanceSection(JDict([Entry("raw", JStr(text))])) == Ok(JStr(text))
  {
    var d := JDict([Entry("raw", JStr(text))]);
    assert d.entries[0].key == "raw";
    assert !HasKey(d.entries, ErrorKey);
  }

  /** A bare maintenance text that contains the word "error" anywhere is
      taken for an error result and replaced by the placeholder. */
  lemma ErrorWordHidesText(s: string)
    requires IsSubstring(ErrorKey, s)
    ensures MaintenanceSection(JStr(s)) == Ok(JStr(MaintenanceUnavailable))
  {
  }
}
