/** What the last pass leaves in a document: every title and label, word for word, and nothing else changed. */
module Labels {
  import opened Decimal
  import opened Json
  import opened Prelude
  import opened Relabelling
  import opened Sanitize
  import opened SanitizeConforms
  import opened TokenPasses

  const ALPHABET := "abcdefghijklmnopqrstuvwxyz"

  /** The records of one collection of the snapshot, none if it is absent. */
  function RecordsOf(doc: Json, name: string): seq<Json> {
    if doc.Obj? && Get(doc.fields, "snapshot").Some? && Get(doc.fields, "snapshot").value.Obj?
    then ItemsOf(Get(doc.fields, "snapshot").value.fields, name)
    else []
  }

  /** What a record holds under a key. */
  function Under(x: Json, key: string): Option<Json> {
    if x.Obj? then Get(x.fields, key) else None
  }

  // The collections after all loops.

  lemma SnapshotAfter(doc: Json)
    requires WellFormed(doc) && doc.Obj? && Get(doc.fields, "snapshot").Some? && Get(doc.fields, "snapshot").value.Obj?
    ensures var s := Get(doc.fields, "snapshot").value.fields;
            && DistinctKeys(s)
            && Relabelled(doc).Obj? && Get(Relabelled(doc).fields, "snapshot") == Some(Obj(EditAll(s, EDITS)))
            && forall k | k != "snapshot" :: Get(Relabelled(doc).fields, k) == Get(doc.fields, k)
  {
    GetField(doc.fields, "snapshot");
    var s := Get(doc.fields, "snapshot").value;
    assert WellFormed(s);
    SetFieldEffect(doc.fields, "snapshot", Obj(EditAll(s.fields, EDITS)));
  }

  lemma AfterAllIsArray(name: string, items: seq<Json>)
    ensures var v := AfterAll(name, Some(Arr(items)));
            v.Some? && v.value.Arr? && |v.value.items| == |items|
  {
  }

  lemma RecordsAfter(doc: Json, name: string)
    requires WellFormed(doc) && RecordsOf(doc, name) != []
    ensures doc.Obj? && Get(doc.fields, "snapshot").Some? && Get(doc.fields, "snapshot").value.Obj?
    ensures var v := AfterAll(name, Some(Arr(RecordsOf(doc, name))));
            && v.Some? && v.value.Arr? && |v.value.items| == |RecordsOf(doc, name)|
            && RecordsOf(Relabelled(doc), name) == v.value.items
  {
    var s := Get(doc.fields, "snapshot").value.fields;
    SnapshotAfter(doc);
    AfterLoops(s);
    AfterAllIsArray(name, RecordsOf(doc, name));
    assert Get(s, name) == Some(Arr(RecordsOf(doc, name)));
    assert Get(EditAll(s, EDITS), name) == AfterAll(name, Get(s, name));
  }

  lemma RecordWellFormed(doc: Json, name: string, i: nat)
    requires WellFormed(doc) && i < |RecordsOf(doc, name)|
    ensures WellFormed(RecordsOf(doc, name)[i])
  {
    GetField(doc.fields, "snapshot");
    var s := Get(doc.fields, "snapshot").value;
    GetField(s.fields, name);
    assert WellFormed(Get(s.fields, name).value);
  }

  // Labels and titles.

  lemma LetterOfAlphabet(i: nat)
    requires i < 26
    ensures Letter(i) == ALPHABET[i]
  {
  }

  /** The label of one of the first 26 workspaces is "space-" and its letter of the alphabet; everything else in the
      workspace is as it was. */
  lemma SpaceLabels(doc: Json, i: nat)
    requires WellFormed(doc) && i < |RecordsOf(doc, "workspaces")| && RecordsOf(doc, "workspaces")[i].Obj?
    ensures |RecordsOf(Relabelled(doc), "workspaces")| == |RecordsOf(doc, "workspaces")|
    ensures var was, now := RecordsOf(doc, "workspaces")[i], RecordsOf(Relabelled(doc), "workspaces")[i];
            && (i < 26 ==> Under(now, "label") == Some(Str("space-" + [ALPHABET[i]])))
            && forall k | k != "label" :: Under(now, k) == Under(was, k)
  {
    var items := RecordsOf(doc, "workspaces");
    NamesApart();
    RecordsAfter(doc, "workspaces");
    RecordWellFormed(doc, "workspaces", i);
    SetFieldEffect(items[i].fields, "label", Str("space-" + [Letter(i)]));
    if i < 26 {
      LetterOfAlphabet(i);
    }
  }

  /** The label of a tab is "tab-" and its place in the list, counted from one; a title it has becomes "shell";
      everything else in the tab is as it was. */
  lemma TabLabels(doc: Json, i: nat)
    requires WellFormed(doc) && i < |RecordsOf(doc, "tabs")| && RecordsOf(doc, "tabs")[i].Obj?
    ensures |RecordsOf(Relabelled(doc), "tabs")| == |RecordsOf(doc, "tabs")|
    ensures var was, now := RecordsOf(doc, "tabs")[i], RecordsOf(Relabelled(doc), "tabs")[i];
            && Under(now, "label") == Some(Str("tab-" + Itoa(i + 1)))
            && forall k | k != "label" :: Under(now, k) == TitleAfter(k, "shell", Under(was, k))
    ensures AllDigits(Itoa(i + 1)) && ParseNat(Itoa(i + 1)) == i + 1
  {
    var items := RecordsOf(doc, "tabs");
    NamesApart();
    RecordsAfter(doc, "tabs");
    RecordWellFormed(doc, "tabs", i);
    TabAt(items, i);
    TabUnder(items[i].fields, i);
    ParseItoa(i + 1);
  }

  /** What becomes of a field when titles are made generic: a title that is there changes, anything else does not. */
  function TitleAfter(key: string, generic: string, v: Option<Json>): Option<Json> {
    if key in {"terminal_title", "terminal_title_stripped"} && v.Some? then Some(Str(generic)) else v
  }

  lemma RetitledUnder(fields: seq<Field>, generic: string)
    requires DistinctKeys(fields)
    ensures DistinctKeys(Retitled(fields, generic))
    ensures forall k :: Get(Retitled(fields, generic), k) == TitleAfter(k, generic, Get(fields, k))
  {
    RetitledEffect(fields, generic);
    forall k
      ensures Get(Retitled(fields, generic), k) == TitleAfter(k, generic, Get(fields, k))
    {
      GetInKeys(fields, k);
      SameTitle(k, generic, Get(fields, k));
    }
  }

  lemma SameTitle(k: string, generic: string, v: Option<Json>)
    ensures TitleAfter(k, generic, v) == if k in TITLE_KEYS && v.Some? then Some(Str(generic)) else v
  {
  }

  lemma TabUnder(fields: seq<Field>, i: nat)
    requires DistinctKeys(fields)
    ensures var now := SetField(Retitled(fields, "shell"), "label", Str("tab-" + Itoa(i + 1)));
            && Get(now, "label") == Some(Str("tab-" + Itoa(i + 1)))
            && forall k | k != "label" :: Get(now, k) == TitleAfter(k, "shell", Get(fields, k))
  {
    RetitledUnder(fields, "shell");
    SetFieldEffect(Retitled(fields, "shell"), "label", Str("tab-" + Itoa(i + 1)));
  }

  lemma TabAt(items: seq<Json>, i: nat)
    requires i < |items| && items[i].Obj?
    ensures EditedItems(TabLabel, EditedItems(Titles("shell"), items))[i]
         == Obj(SetField(Retitled(items[i].fields, "shell"), "label", Str("tab-" + Itoa(i + 1))))
  {
  }

  /** A title a pane has becomes "shell", everything else in the pane is as it was. */
  lemma PaneTitles(doc: Json, i: nat)
    requires WellFormed(doc) && i < |RecordsOf(doc, "panes")| && RecordsOf(doc, "panes")[i].Obj?
    ensures |RecordsOf(Relabelled(doc), "panes")| == |RecordsOf(doc, "panes")|
    ensures forall k :: Under(RecordsOf(Relabelled(doc), "panes")[i], k)
                        == TitleAfter(k, "shell", Under(RecordsOf(doc, "panes")[i], k))
  {
    NamesApart();
    RecordsAfter(doc, "panes");
    RecordWellFormed(doc, "panes", i);
    RetitledUnder(RecordsOf(doc, "panes")[i].fields, "shell");
  }

  /** A title an agent has becomes "agent", everything else in the agent is as it was. */
  lemma AgentTitles(doc: Json, i: nat)
    requires WellFormed(doc) && i < |RecordsOf(doc, "agents")| && RecordsOf(doc, "agents")[i].Obj?
    ensures |RecordsOf(Relabelled(doc), "agents")| == |RecordsOf(doc, "agents")|
    ensures forall k :: Under(RecordsOf(Relabelled(doc), "agents")[i], k)
                        == TitleAfter(k, "agent", Under(RecordsOf(doc, "agents")[i], k))
  {
    NamesApart();
    RecordsAfter(doc, "agents");
    RecordWellFormed(doc, "agents", i);
    RetitledUnder(RecordsOf(doc, "agents")[i].fields, "agent");
  }

  /** Outside the four collections nothing changes. */
  lemma OthersKept(doc: Json, k: string)
    requires WellFormed(doc) && doc.Obj? && Get(doc.fields, "snapshot").Some? && Get(doc.fields, "snapshot").value.Obj?
    requires k !in {"panes", "agents", "tabs", "workspaces"}
    ensures Relabelled(doc).Obj? && (k != "snapshot" ==> Under(Relabelled(doc), k) == Under(doc, k))
    ensures var was, now := Get(doc.fields, "snapshot").value, Get(Relabelled(doc).fields, "snapshot");
            now.Some? && Under(now.value, k) == Under(was, k)
  {
    SnapshotAfter(doc);
    AfterLoops(Get(doc.fields, "snapshot").value.fields);
  }

  // Hence labels tell records apart.

  /** No two of the first 26 workspaces share a label. */
  lemma SpacesApart(doc: Json, i: nat, j: nat)
    requires WellFormed(doc) && i < j < |RecordsOf(doc, "workspaces")| && j < 26
    requires RecordsOf(doc, "workspaces")[i].Obj? && RecordsOf(doc, "workspaces")[j].Obj?
    ensures |RecordsOf(Relabelled(doc), "workspaces")| == |RecordsOf(doc, "workspaces")|
    ensures var now := RecordsOf(Relabelled(doc), "workspaces");
            Under(now[i], "label") != Under(now[j], "label")
  {
    SpaceLabels(doc, i);
    SpaceLabels(doc, j);
    assert ALPHABET[i] != ALPHABET[j] by {
      LetterOfAlphabet(i);
      LetterOfAlphabet(j);
    }
    assert ("space-" + [ALPHABET[i]])[6] == ALPHABET[i] && ("space-" + [ALPHABET[j]])[6] == ALPHABET[j];
  }

  /** No two tabs share a label. */
  lemma TabsApart(doc: Json, i: nat, j: nat)
    requires WellFormed(doc) && i < j < |RecordsOf(doc, "tabs")|
    requires RecordsOf(doc, "tabs")[i].Obj? && RecordsOf(doc, "tabs")[j].Obj?
    ensures |RecordsOf(Relabelled(doc), "tabs")| == |RecordsOf(doc, "tabs")|
    ensures var now := RecordsOf(Relabelled(doc), "tabs");
            Under(now[i], "label") != Under(now[j], "label")
  {
    TabLabels(doc, i);
    TabLabels(doc, j);
    assert ("tab-" + Itoa(i + 1))[4..] == Itoa(i + 1) && ("tab-" + Itoa(j + 1))[4..] == Itoa(j + 1);
  }
}
