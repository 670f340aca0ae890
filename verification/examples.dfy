/** Worked inputs for the section functions: the payloads a reader would try
    first, with the exact text each produces. Each example is assembled from
    small facts about its input so that no single proof has to evaluate a
    whole section at once. */
module Examples {
  import opened PyValues
  import opened Sections

  // ------------------------------------------------------------ occupancy

  const Occupancy: Json := JDict([
    Entry("total", JInt(22)),
    Entry("occupied", JInt(15)),
    Entry("available", JInt(7)),
    Entry("occupancyRate", JInt(68))])

  lemma OccupancyHasNoError()
    ensures !HasKey(Occupancy.entries, ErrorKey)
  {
    var entries := Occupancy.entries;
    forall i | 0 <= i < |entries| ensures entries[i].key != ErrorKey {
      assert entries[i].key[0] != ErrorKey[0];
    }
  }

  lemma OccupancyCounts()
    ensures CountOr0(Occupancy.entries, "total") == JInt(22)
    ensures CountOr0(Occupancy.entries, "occupied") == JInt(15)
    ensures CountOr0(Occupancy.entries, "available") == JInt(7)
    ensures CountOr0(Occupancy.entries, "occupancyRate") == JInt(68)
  {
    var entries := Occupancy.entries;
    assert entries[0].key == "total" && entries[1].key == "occupied";
    assert entries[2].key == "available" && entries[3].key == "occupancyRate";
  }

  lemma OccupancyShown()
    ensures Show(CountOr0(Occupancy.entries, "total")) == "22"
    ensures Show(CountOr0(Occupancy.entries, "occupied")) == "15"
    ensures Show(CountOr0(Occupancy.entries, "available")) == "7"
    ensures Show(CountOr0(Occupancy.entries, "occupancyRate")) == "68"
  {
    OccupancyCounts();
    ShowCounts();
  }

  lemma ShowCounts()
    ensures Show(JInt(22)) == "22" && Show(JInt(15)) == "15"
    ensures Show(JInt(7)) == "7" && Show(JInt(68)) == "68"
  {
    assert NatToString(22) == "22" && NatToString(15) == "15";
    assert NatToString(7) == "7" && NatToString(68) == "68";
  }

  /** The section with the four figures substituted into their lines. */
  lemma OccupancyFilled()
    ensures OccupancySection(Occupancy) == Ok(Join("\n", [
      OccupancyTitle,
      Rule(23),
      "Total Capsules: " + "22",
      "Occupied: " + "15" + " capsules",
      "Available: " + "7" + " capsules",
      "Occupancy Rate: " + "68" + "%"]))
  {
    OccupancyHasNoError();
    OccupancyShown();
  }

  lemma OccupancyLiterals()
    ensures ["Total Capsules: " + "22", "Occupied: " + "15" + " capsules",
      "Available: " + "7" + " capsules", "Occupancy Rate: " + "68" + "%"]
      == ["Total Capsules: 22", "Occupied: 15 capsules", "Available: 7 capsules", "Occupancy Rate: 68%"]
  {
    assert "Total Capsules: " + "22" == "Total Capsules: 22";
    assert "Occupied: " + "15" + " capsules" == "Occupied: 15 capsules";
    assert "Available: " + "7" + " capsules" == "Available: 7 capsules";
    assert "Occupancy Rate: " + "68" + "%" == "Occupancy Rate: 68%";
  }

  /** The four occupancy figures appear in the fixed order total, occupied,
      available, rate. */
  lemma OccupancyExample()
    ensures OccupancySection(Occupancy) == Ok(Join("\n", [
      OccupancyTitle,
      Rule(23),
      "Total Capsules: 22",
      "Occupied: 15 capsules",
      "Available: 7 capsules",
      "Occupancy Rate: 68%"]))
  {
    OccupancyFilled();
    OccupancyLiterals();
  }

  // ------------------------------------------------------------- capsules

  /** One occupied capsule in the front section. */
  const F1: Json := JDict([
    Entry("section", JStr("front")),
    Entry("isAvailable", JBool(false)),
    Entry("number", JStr("F1"))])

  const FrontLines: seq<string> := ["FRONT SECTION (1 capsules):", "  Occupied: F1", "  Available: None", ""]

  lemma F1Lookups()
    ensures Lookup(F1.entries, "section") == Some(JStr("front"))
    ensures Lookup(F1.entries, "isAvailable") == Some(JBool(false))
    ensures Lookup(F1.entries, "number") == Some(JStr("F1"))
  {
    var e := F1.entries;
    assert e[0].key == "section" && e[1].key == "isAvailable" && e[2].key == "number";
  }

  lemma F1Tag()
    ensures TagOf(F1) == Ok(Some(Front))
  {
    F1Lookups();
  }

  lemma F1Classified()
    ensures Classify([F1]) == Ok(Buckets([], [], [F1]))
  {
    F1Tag();
    assert [F1][0] == F1;
    var r := Classify([F1]);
    assert r.Ok?;
    TaggedOne(F1, Back);
    TaggedOne(F1, Middle);
    TaggedOne(F1, Front);
    assert r.value.back == r.value.Of(Back) == [];
    assert r.value.middle == r.value.Of(Middle) == [];
    assert r.value.front == r.value.Of(Front) == [F1];
  }

  lemma TaggedOne(c: Json, t: Tag)
    ensures Tagged([c], t) == if TagOf(c) == Ok(Some(t)) then [c] else []
  {
    assert [c][1..] == [];
  }

  lemma F1Numbers()
    ensures Numbers([F1], false) == Ok([JStr("F1")])
    ensures Numbers([F1], true) == Ok([])
  {
    F1Lookups();
    var g := [F1];
    assert g[0] == F1 && g[1..] == [];
    assert HasKey(F1.entries, "isAvailable") && HasKey(F1.entries, "number");
    assert Get(F1, "isAvailable", JNull) == Ok(JBool(false));
    assert !Truthy(JBool(false));
    assert NumberOf(F1) == Ok([JStr("F1")]);
    assert Numbers(g[1..], false) == Ok([]);
    assert Numbers(g[1..], true) == Ok([]);
    assert [JStr("F1")] + [] == [JStr("F1")];
    var none: seq<Json> := [];
    assert none + none == none;
  }

  /** A group whose two number lists render to `occupied` and `available`
      gives its header and those two lines. */
  lemma GroupLinesOf(t: Tag, group: seq<Json>, occ: seq<Json>, avail: seq<Json>, occupied: string, available: string)
    requires Numbers(group, false) == Ok(occ) && Numbers(group, true) == Ok(avail)
    requires NumberList(occ) == Ok(occupied) && NumberList(avail) == Ok(available)
    ensures GroupLines(t, group) == Ok([GroupHeader(t, |group|), "  Occupied: " + occupied, "  Available: " + available, ""])
  {
  }

  lemma F1NumberLists()
    ensures NumberList([JStr("F1")]) == Ok("F1")
    ensures NumberList([]) == Ok("None")
  {
    assert Texts([JStr("F1")]) == ["F1"];
  }

  lemma FrontHeader()
    ensures GroupHeader(Front, 1) == "FRONT SECTION (1 capsules):"
  {
    assert NatToString(1) == "1";
    assert GroupHeader(Front, 1) == "FRONT SECTION" + " (" + "1" + " capsules):";
  }

  lemma F1Lines()
    ensures GroupLines(Front, [F1]) == Ok(FrontLines)
  {
    F1Numbers();
    F1NumberLists();
    GroupLinesOf(Front, [F1], [JStr("F1")], [], "F1", "None");
    FrontLinesLiteral();
  }

  lemma FrontLinesLiteral()
    ensures [GroupHeader(Front, |[F1]|), "  Occupied: " + "F1", "  Available: " + "None", ""] == FrontLines
  {
    FrontHeader();
    assert "  Occupied: " + "F1" == "  Occupied: F1";
    assert "  Available: " + "None" == "  Available: None";
  }

  /** A front bucket that renders to `lines` gives exactly one block. */
  lemma OneFrontBlock(b: Buckets, lines: seq<string>)
    requires |b.Of(Front)| > 0 && GroupLines(Front, b.Of(Front)) == Ok(lines)
    ensures GroupBlocks(b, [Front]) == Ok([lines])
  {
    var tags := [Front];
    assert tags[0] == Front && tags[1..] == [];
    assert GroupBlocks(b, tags[1..]) == Ok([]);
    assert [lines] + [] == [lines];
  }

  lemma F1Blocks()
    ensures GroupBlocks(Buckets([], [], [F1]), TagOrder) == Ok([FrontLines])
  {
    F1Lines();
    OneFrontBlock(Buckets([], [], [F1]), FrontLines);
    assert TagOrder[1..] == [Middle, Front];
    assert [Middle, Front][1..] == [Front];
  }

  /** A single occupied front capsule gives only the front group: F1 under
      Occupied, None under Available; the empty back and middle groups are
      left out. */
  lemma FrontCapsuleExample()
    ensures CapsuleSection(JList([F1])) == Ok(RStrip(Join("\n", CapsuleHead + FrontLines)))
  {
    F1Classified();
    F1Blocks();
    F1IsNotError();
    FlattenOne(FrontLines);
  }

  lemma F1IsNotError()
    ensures JStr(ErrorKey) !in [F1]
  {
  }

  lemma FlattenOne(lines: seq<string>)
    ensures Flatten([lines]) == lines
  {
    assert [lines][1..] == [];
  }

  // -------------------------------------------------------------- overdue

  /** An empty overdue list is the success message, not the placeholder. */
  lemma EmptyOverdueExample()
    ensures OverdueSection(JList([])) == Ok(NoOverdue)
    ensures OverdueSection(JList([])) != Ok(OverdueUnavailable)
  {
    NoOverdueIsNotUnavailable();
  }
}
