/**
 Model discovery of the Codex client: the `model/list` paging loop and the catalogue that
 is built from its pages (daemon/core/src/codex_app_server.rs, `initialize`).
 */
module ModelCatalog {
  import opened Wrappers
  import opened Sequences
  import opened Text

  datatype Name = Name(text: string)

  /** A JSON field that is read as a string. */
  datatype Field = Missing | NotText | Text(name: Name)

  /** The fields of a model entry; `efforts` are the `reasoningEffort` fields of its
      supported efforts, none when that array is missing. */
  datatype Model = Model(
    model: Field,
    id: Field,
    displayName: Field,
    isDefault: bool,
    efforts: seq<Field>,
    defaultEffort: Field)

  // ----- Paging -----

  /** What the server answers to one `model/list` request. */
  datatype PageReply = Refused | NoData | Page(models: seq<Model>, nextCursor: Field)

  function NextCursor(reply: PageReply): Option<Name>
    requires reply.Page?
  {
    if reply.nextCursor.Text? && reply.nextCursor.name.text != "" then Some(reply.nextCursor.name) else None
  }

  predicate PagesBefore(replies: seq<PageReply>, k: nat) {
    k <= |replies| && forall j | 0 <= j < k :: replies[j].Page?
  }

  /** The cursor of request number `k`, when all earlier requests returned a page. */
  function CursorAt(replies: seq<PageReply>, k: nat): Option<Name>
    requires PagesBefore(replies, k)
  {
    if k == 0 then None else NextCursor(replies[k-1])
  }

  /** Page `k` has no next cursor, or repeats the cursor it was asked with. */
  predicate EndsAt(replies: seq<PageReply>, k: nat)
    requires k < |replies| && PagesBefore(replies, k)
  {
    replies[k].Page? && (NextCursor(replies[k]) == None || NextCursor(replies[k]) == CursorAt(replies, k))
  }

  function PagesUpTo(replies: seq<PageReply>, n: nat): seq<Model>
    requires PagesBefore(replies, n)
  {
    if n == 0 then [] else PagesUpTo(replies, n - 1) + replies[n-1].models
  }

  /** The paging loop against a server whose answers are `replies` in turn, after which it
      is gone. `cursors` are the cursors of the requests made. */
  method GatherModels(replies: seq<PageReply>) returns (models: Option<seq<Model>>, cursors: seq<Option<Name>>)
    ensures 1 <= |cursors| && PagesBefore(replies, |cursors| - 1)
    ensures forall j | 0 <= j < |cursors| - 1 :: !EndsAt(replies, j)
    ensures forall k | 0 <= k < |cursors| :: cursors[k] == CursorAt(replies, k)
    ensures models.Some? <==> |cursors| <= |replies| && EndsAt(replies, |cursors| - 1)
    ensures models.None? <==> |cursors| == |replies| + 1 || !replies[|cursors|-1].Page?
    ensures models.Some? ==> models.value == PagesUpTo(replies, |cursors|)
  {
    var gathered := [];
    var cursor: Option<Name> := None;
    cursors := [];
    while true
      invariant PagesBefore(replies, |cursors|)
      invariant forall j | 0 <= j < |cursors| :: !EndsAt(replies, j)
      invariant forall k | 0 <= k < |cursors| :: cursors[k] == CursorAt(replies, k)
      invariant cursor == CursorAt(replies, |cursors|)
      invariant gathered == PagesUpTo(replies, |cursors|)
      decreases |replies| - |cursors|
    {
      var request := |cursors|;
      cursors := cursors + [cursor];
      if request == |replies| || replies[request].Refused? { return None, cursors; }
      if replies[request].NoData? { return None, cursors; }
      gathered := gathered + replies[request].models;
      var nextCursor := NextCursor(replies[request]);
      if nextCursor == cursor { break; }
      if nextCursor == None { break; }
      cursor := nextCursor;
    }
    models := Some(gathered);
  }

  function Following(i: nat, n: nat): nat { if i + 1 >= n then 0 else i + 1 }

  /** Where a server that goes round a cycle of `n` cursors stands at request `k`. */
  function PlaceInCycle(k: nat, n: nat): (i: nat)
    requires n > 0
    ensures i < n
  {
    if k == 0 then 0 else Following(PlaceInCycle(k - 1, n), n)
  }

  lemma {:induction false} FirstRound(k: nat, n: nat)
    requires k <= n && n > 0
    ensures PlaceInCycle(k, n) == if k == n then 0 else k
  {
    if k > 0 { FirstRound(k - 1, n); }
  }

  ghost predicate GoesRound(replies: seq<PageReply>, cycle: seq<Name>)
    requires cycle != []
  {
    forall j | 0 <= j < |replies| ::
      replies[j].Page? && replies[j].nextCursor == Text(cycle[PlaceInCycle(j, |cycle|)])
  }

  /** No cursor of the cycle is empty or equal to the one after it. */
  ghost predicate NeighboursDiffer(cycle: seq<Name>) {
    forall i | 0 <= i < |cycle| :: cycle[i].text != "" && cycle[i] != cycle[Following(i, |cycle|)]
  }

  lemma RoundEndsAt(replies: seq<PageReply>, cycle: seq<Name>, k: nat)
    requires cycle != [] && GoesRound(replies, cycle) && k < |replies|
    ensures PagesBefore(replies, k)
    ensures var here := cycle[PlaceInCycle(k, |cycle|)];
            !EndsAt(replies, k) <==>
            here.text != "" &&
            (k > 0 ==> var last := cycle[PlaceInCycle(k - 1, |cycle|)]; last.text == "" || here != last)
  {
    hide PlaceInCycle;
    if k > 0 { assert replies[k-1].nextCursor == Text(cycle[PlaceInCycle(k - 1, |cycle|)]); }
    assert replies[k].nextCursor == Text(cycle[PlaceInCycle(k, |cycle|)]);
  }

  lemma NextPlace(k: nat, n: nat)
    requires k > 0 && n > 0
    ensures PlaceInCycle(k, n) == Following(PlaceInCycle(k - 1, n), n)
  {
  }

  /** The loop notices a cursor that repeats its predecessor, and no other cycle: a server that
      goes round is asked for ever exactly when neighbouring cursors of its cycle differ and none
      is empty. */
  lemma CyclesAreNotNoticed(replies: seq<PageReply>, cycle: seq<Name>)
    requires cycle != [] && GoesRound(replies, cycle) && |cycle| < |replies|
    ensures forall k | 0 <= k < |replies| :: PagesBefore(replies, k)
    ensures (forall k | 0 <= k < |replies| :: !EndsAt(replies, k)) <==> NeighboursDiffer(cycle)
  {
    var n := |cycle|;
    forall k | 0 <= k < |replies| ensures PagesBefore(replies, k) { RoundEndsAt(replies, cycle, k); }
    hide EndsAt, PagesBefore, GoesRound, PlaceInCycle;
    if NeighboursDiffer(cycle) {
      forall k | 0 <= k < |replies| ensures !EndsAt(replies, k) {
        RoundEndsAt(replies, cycle, k);
        if k > 0 { NextPlace(k, n); }
      }
    }
    if forall k | 0 <= k < |replies| :: !EndsAt(replies, k) {
      forall i | 0 <= i < n ensures cycle[i].text != "" && cycle[i] != cycle[Following(i, n)] {
        FirstRound(i, n);
        FirstRound(i + 1, n);
        RoundEndsAt(replies, cycle, i);
        RoundEndsAt(replies, cycle, i + 1);
      }
    }
  }

  // ----- The catalogue -----

  datatype SettingValue = SettingValue(id: Name, name: Name)

  datatype Catalogue = Catalogue(
    models: seq<SettingValue>,
    defaultModel: Option<Name>,
    effortsOf: map<Name, seq<Name>>,
    effortsShown: seq<Name>,
    currentEffort: Option<Name>)

  /** A `model` key that is not a string hides the `id` key. */
  function ModelId(entry: Model): Option<Name> {
    match entry.model
    case Text(name) => Some(name)
    case NotText => None
    case Missing => if entry.id.Text? then Some(entry.id.name) else None
  }

  function LabelOf(entry: Model, id: Name): Name {
    if entry.displayName.Text? && Trim(entry.displayName.name.text) != "" then entry.displayName.name else id
  }

  /** The ids of the entries that have one, in order. */
  function IdsOf(models: seq<Model>): seq<Name> {
    if models == [] then []
    else
      IdsOf(models[..|models|-1]) +
      if ModelId(models[|models|-1]).Some? then [ModelId(models[|models|-1]).value] else []
  }

  function NamesOf(fields: seq<Field>): seq<Name> {
    if fields == [] then []
    else NamesOf(fields[..|fields|-1]) + if fields[|fields|-1].Text? then [fields[|fields|-1].name] else []
  }

  /** The entry that stands for an id: the first that has it. */
  function EntryOf(models: seq<Model>, id: Name): (entry: Model)
    requires id in IdsOf(models)
    ensures entry in models && ModelId(entry) == Some(id)
  {
    var before := models[..|models|-1];
    if id in IdsOf(before) then EntryOf(before, id) else models[|models|-1]
  }

  function ValueOf(models: seq<Model>, id: Name): SettingValue
    requires id in IdsOf(models)
  {
    SettingValue(id, LabelOf(EntryOf(models, id), id))
  }

  /** One value per id, in the order of first occurrence and read from the first entry. */
  function Values(models: seq<Model>): seq<SettingValue> {
    var ids := Distinct(IdsOf(models));
    DistinctKeepsFirstOccurrences(IdsOf(models));
    seq(|ids|, i requires 0 <= i < |ids| => ValueOf(models, ids[i]))
  }

  function EffortsOf(models: seq<Model>): map<Name, seq<Name>> {
    map id | id in IdsOf(models) :: Distinct(NamesOf(EntryOf(models, id).efforts))
  }

  /** The last catalogued entry that is marked as the default. */
  function DefaultOf(models: seq<Model>): (id: Option<Name>)
    ensures id.Some? ==> id.value in IdsOf(models) && EntryOf(models, id.value).isDefault
    ensures id.None? ==> forall k <- IdsOf(models) :: !EntryOf(models, k).isDefault
  {
    if models == [] then None
    else
      var before, last := models[..|models|-1], models[|models|-1];
      if ModelId(last).Some? && ModelId(last).value !in IdsOf(before) && last.isDefault then ModelId(last)
      else DefaultOf(before)
  }

  /** The first entry for a model, catalogued or not, that names a default effort. */
  function DefaultEffort(models: seq<Model>, id: Name): Option<Name> {
    if models == [] then None
    else if ModelId(models[0]) == Some(id) && models[0].defaultEffort.Text? then Some(models[0].defaultEffort.name)
    else DefaultEffort(models[1..], id)
  }

  // ----- Adding one entry -----

  /** The entry brings an id that no earlier entry has. */
  predicate IsNew(models: seq<Model>, entry: Model) {
    ModelId(entry).Some? && ModelId(entry).value !in IdsOf(models)
  }

  lemma IdsExtended(models: seq<Model>, entry: Model)
    ensures IdsOf(models + [entry])
         == if ModelId(entry).Some? then IdsOf(models) + [ModelId(entry).value] else IdsOf(models)
    ensures forall id <- IdsOf(models) :: EntryOf(models + [entry], id) == EntryOf(models, id)
    ensures IsNew(models, entry) ==> EntryOf(models + [entry], ModelId(entry).value) == entry
  {
    assert (models + [entry])[..|models|] == models;
  }

  lemma ValuesExtended(models: seq<Model>, entry: Model)
    ensures Values(models + [entry])
         == if IsNew(models, entry)
            then Values(models) + [SettingValue(ModelId(entry).value, LabelOf(entry, ModelId(entry).value))]
            else Values(models)
  {
    hide LabelOf, EntryOf, IdsOf, ModelId, Distinct;
    IdsExtended(models, entry);
    DistinctKeepsFirstOccurrences(IdsOf(models));
    DistinctKeepsFirstOccurrences(IdsOf(models + [entry]));
    if ModelId(entry).Some? { DistinctExtended(IdsOf(models), ModelId(entry).value); }
  }

  lemma EffortsExtended(models: seq<Model>, entry: Model)
    ensures EffortsOf(models + [entry])
         == if IsNew(models, entry)
            then EffortsOf(models)[ModelId(entry).value := Distinct(NamesOf(entry.efforts))]
            else EffortsOf(models)
  {
    hide EntryOf, IdsOf, ModelId, Distinct, NamesOf;
    IdsExtended(models, entry);
    assert IsNew(models, entry) ==> ModelId(entry).value in IdsOf(models + [entry]);
    assert forall id <- IdsOf(models + [entry]) ::
        id in IdsOf(models) || (IsNew(models, entry) && id == ModelId(entry).value);
    assert EffortsOf(models + [entry]).Keys
        == if IsNew(models, entry) then EffortsOf(models).Keys + {ModelId(entry).value} else EffortsOf(models).Keys;
  }

  lemma DefaultExtended(models: seq<Model>, entry: Model)
    ensures DefaultOf(models + [entry])
         == if IsNew(models, entry) && entry.isDefault then ModelId(entry) else DefaultOf(models)
  {
    assert (models + [entry])[..|models|] == models;
  }

  lemma NamesExtended(fields: seq<Field>, field: Field)
    ensures NamesOf(fields + [field]) == if field.Text? then NamesOf(fields) + [field.name] else NamesOf(fields)
  {
    assert (fields + [field])[..|fields|] == fields;
  }

  // ----- Building it -----

  predicate HasId(values: seq<SettingValue>, id: Name) {
    exists value :: value in values && value.id == id
  }

  lemma ValuesHaveTheIds(models: seq<Model>)
    ensures |Values(models)| == |Distinct(IdsOf(models))|
    ensures forall i | 0 <= i < |Values(models)| :: Values(models)[i].id == Distinct(IdsOf(models))[i]
    ensures forall id :: HasId(Values(models), id) <==> id in IdsOf(models)
  {
    hide EntryOf, IdsOf, Distinct;
    var ids, values := Distinct(IdsOf(models)), Values(models);
    DistinctKeepsFirstOccurrences(IdsOf(models));
    forall id ensures HasId(values, id) <==> id in ids {
      if id in ids {
        var i :| 0 <= i < |ids| && ids[i] == id;
        assert values[i] in values;
      }
    }
  }

  /** The inner loop: the efforts of one entry without repetitions. */
  method DistinctEfforts(fields: seq<Field>) returns (efforts: seq<Name>)
    ensures efforts == Distinct(NamesOf(fields)) && NoDuplicates(efforts)
  {
    efforts := [];
    for i := 0 to |fields|
      invariant efforts == Distinct(NamesOf(fields[..i]))
    {
      assert fields[..i+1] == fields[..i] + [fields[i]];
      NamesExtended(fields[..i], fields[i]);
      if !fields[i].Text? { continue; }
      DistinctExtended(NamesOf(fields[..i]), fields[i].name);
      if fields[i].name !in efforts {
        efforts := efforts + [fields[i].name];
      }
    }
    assert fields[..|fields|] == fields;
    DistinctKeepsFirstOccurrences(NamesOf(fields));
  }

  /** The outer loop. */
  method CollectModels(models: seq<Model>)
    returns (values: seq<SettingValue>, effortsOf: map<Name, seq<Name>>, defaultModel: Option<Name>)
    ensures values == Values(models) && effortsOf == EffortsOf(models) && defaultModel == DefaultOf(models)
  {
    hide Values, EffortsOf, DefaultOf, LabelOf, ModelId;
    values, effortsOf, defaultModel := [], map[], None;
    EmptyCatalogue();
    for i := 0 to |models|
      invariant values == Values(models[..i])
      invariant effortsOf == EffortsOf(models[..i])
      invariant defaultModel == DefaultOf(models[..i])
    {
      var entry := models[i];
      assert models[..i+1] == models[..i] + [entry];
      ValuesHaveTheIds(models[..i]);
      ValuesExtended(models[..i], entry);
      EffortsExtended(models[..i], entry);
      DefaultExtended(models[..i], entry);
      if ModelId(entry).None? { continue; }
      var id := ModelId(entry).value;
      if HasId(values, id) { continue; }
      values := values + [SettingValue(id, LabelOf(entry, id))];
      if entry.isDefault { defaultModel := Some(id); }
      var efforts := DistinctEfforts(entry.efforts);
      effortsOf := effortsOf[id := efforts];
    }
    assert models[..|models|] == models;
  }

  lemma EmptyCatalogue()
    ensures Values([]) == [] && EffortsOf([]) == map[] && DefaultOf([]) == None
  {
  }

  /** The model whose efforts are shown: the configured one if the catalogue has it, else
      the default, else the first. */
  function Selected(values: seq<SettingValue>, configured: Option<Name>, defaultModel: Option<Name>): Name
    requires values != []
  {
    if configured.Some? && HasId(values, configured.value) then configured.value
    else if defaultModel.Some? then defaultModel.value
    else values[0].id
  }

  /** The catalogue is the first-occurrence de-duplication of the pages; its ids are exactly
      the keys of the effort map; no effort list repeats an effort; the default model and
      the model whose efforts are shown are in it. */
  method BuildCatalogue(models: seq<Model>, configured: Option<Name>) returns (r: Option<Catalogue>)
    ensures r.None? <==> IdsOf(models) == []
    ensures r.Some? ==> IsCatalogueOf(r.value, models, configured)
  {
    var values, effortsOf, defaultModel := CollectModels(models);
    ValuesHaveTheIds(models);
    hide Values, Distinct, IdsOf, EntryOf;
    DistinctOfNothing(IdsOf(models));
    if values == [] { return None; }
    assert HasId(values, values[0].id);
    forall id <- effortsOf ensures NoDuplicates(effortsOf[id]) {
      DistinctKeepsFirstOccurrences(NamesOf(EntryOf(models, id).efforts));
    }
    hide NoDuplicates;
    var selected := Selected(values, configured, defaultModel);
    r := Some(Catalogue(values, defaultModel, effortsOf, effortsOf[selected], DefaultEffort(models, selected)));
  }

  lemma DistinctOfNothing(ids: seq<Name>)
    ensures Distinct(ids) == [] <==> ids == []
  {
    DistinctKeepsFirstOccurrences(ids);
    if ids != [] { assert ids[0] in Distinct(ids); }
  }

  ghost predicate IsCatalogueOf(c: Catalogue, models: seq<Model>, configured: Option<Name>) {
    && c.models == Values(models) != []
    && c.defaultModel == DefaultOf(models)
    && c.effortsOf == EffortsOf(models)
    && (forall id :: HasId(c.models, id) <==> id in c.effortsOf)
    && (forall id <- c.effortsOf :: NoDuplicates(c.effortsOf[id]))
    && (c.defaultModel.Some? ==> HasId(c.models, c.defaultModel.value))
    && var selected := if configured.Some? && HasId(c.models, configured.value) then configured.value
                       else if c.defaultModel.Some? then c.defaultModel.value
                       else c.models[0].id;
       && HasId(c.models, selected)
       && c.effortsShown == c.effortsOf[selected]
       && c.currentEffort == DefaultEffort(models, selected)
  }

  /** The ids of the catalogue are the distinct ids of the entries, each at the place of its
      first occurrence. */
  lemma CatalogueIdsAreFirstOccurrences(models: seq<Model>)
    ensures var ids, values := IdsOf(models), Values(models);
            && (forall id :: HasId(values, id) <==> id in ids)
            && (forall i, j | 0 <= i < j < |values| ::
                  && values[i].id in ids && values[j].id in ids
                  && FirstIndex(ids, values[i].id) < FirstIndex(ids, values[j].id))
  {
    hide Values;
    ValuesHaveTheIds(models);
    DistinctKeepsFirstOccurrences(IdsOf(models));
  }

  // ----- Which entry is read -----

  /** The entry has this id: under `model`, or under `id` when it has no `model`. */
  predicate IsFor(entry: Model, id: Name) {
    entry.model == Text(id) || (entry.model == Missing && entry.id == Text(id))
  }

  ghost predicate IsFirstFor(models: seq<Model>, j: nat, id: Name) {
    j < |models| && IsFor(models[j], id) && forall i | 0 <= i < j :: !IsFor(models[i], id)
  }

  lemma {:induction false} FirstEntryIsRead(models: seq<Model>, id: Name) returns (j: nat)
    ensures id in IdsOf(models) <==> exists k: nat :: IsFirstFor(models, k, id)
    ensures id in IdsOf(models) ==> IsFirstFor(models, j, id) && EntryOf(models, id) == models[j]
  {
    j := 0;
    if models != [] {
      var before, last := models[..|models|-1], models[|models|-1];
      assert ModelId(last) == Some(id) <==> IsFor(last, id);
      hide ModelId;
      var k := FirstEntryIsRead(before, id);
      if id in IdsOf(before) {
        j := k;
        assert IsFirstFor(models, j, id);
      } else if IsFor(last, id) {
        j := |models| - 1;
        assert NoneBefore(before, id) by { NoFirstNoEntry(before, id); }
        assert forall i | 0 <= i < |before| :: before[i] == models[i];
        assert IsFirstFor(models, j, id);
      } else {
        NoFirstNoEntry(before, id);
        assert forall i | 0 <= i < |before| :: before[i] == models[i];
      }
    }
  }

  ghost predicate NoneBefore(models: seq<Model>, id: Name) {
    forall i | 0 <= i < |models| :: !IsFor(models[i], id)
  }

  lemma {:induction false} NoFirstNoEntry(models: seq<Model>, id: Name)
    requires id !in IdsOf(models)
    ensures NoneBefore(models, id)
  {
    if models != [] {
      var before, last := models[..|models|-1], models[|models|-1];
      NoFirstNoEntry(before, id);
      assert ModelId(last) == Some(id) <==> IsFor(last, id);
      forall i | 0 <= i < |models| ensures !IsFor(models[i], id) {
        assert i < |before| ==> models[i] == before[i];
      }
    }
  }

  /** Each value and each effort list is read from the first entry for its id: the label is the
      display name unless that is blank, the efforts are its distinct ones. */
  lemma CatalogueReadsFirstEntries(models: seq<Model>, v: SettingValue)
    requires v in Values(models)
    ensures exists j: nat :: ReadFrom(models, j, v)
  {
    ValuesHaveTheIds(models);
    var k :| 0 <= k < |Values(models)| && Values(models)[k] == v;
    var ids := Distinct(IdsOf(models));
    DistinctKeepsFirstOccurrences(IdsOf(models));
    assert v == ValueOf(models, ids[k]);
    var j := FirstEntryIsRead(models, v.id);
    hide EntryOf, IdsOf, Distinct, Trim;
    assert ReadFrom(models, j, v);
  }

  ghost predicate ReadFrom(models: seq<Model>, j: nat, v: SettingValue) {
    && IsFirstFor(models, j, v.id)
    && var entry := models[j];
       && (v.name == if entry.displayName.Text? && Trim(entry.displayName.name.text) != "" then entry.displayName.name
                     else v.id)
       && v.id in EffortsOf(models) && EffortsOf(models)[v.id] == Distinct(NamesOf(entry.efforts))
  }

  function Texts(names: seq<Name>): seq<Field> {
    seq(|names|, i requires 0 <= i < |names| => Text(names[i]))
  }

  /** The efforts that are read are the text fields, in their order. */
  lemma {:induction false} NamesAreTheTexts(fields: seq<Field>)
    ensures |NamesOf(fields)| <= |fields| && Subsequence(Texts(NamesOf(fields)), fields)
    ensures forall x :: x in NamesOf(fields) <==> Text(x) in fields
  {
    var texts := Texts(NamesOf(fields));
    if fields == [] {
      assert Picks([], texts, fields);
    } else {
      var before, last := fields[..|fields|-1], fields[|fields|-1];
      NamesAreTheTexts(before);
      var earlier := Texts(NamesOf(before));
      var idx: seq<nat> :| Picks(idx, earlier, before);
      assert fields == before + [last];
      if last.Text? {
        assert NamesOf(fields) == NamesOf(before) + [last.name];
        assert texts == earlier + [last];
        PicksExtended(idx, earlier, before, last);
      } else {
        assert Picks(idx, texts, fields);
      }
    }
  }

  lemma PicksExtended<T(!new)>(idx: seq<nat>, xs: seq<T>, ys: seq<T>, y: T)
    requires Picks(idx, xs, ys)
    ensures Picks(idx + [|ys|], xs + [y], ys + [y])
  {
  }

  ghost predicate IsDefaultAt(models: seq<Model>, j: nat, id: Name) {
    IsFirstFor(models, j, id) && models[j].isDefault
  }

  /** The default model is the last one whose first entry is marked as the default. */
  lemma {:induction false} DefaultIsTheLastMarked(models: seq<Model>, id: Name)
    ensures DefaultOf(models) == Some(id) <==> exists j: nat :: IsLastDefault(models, j, id)
  {
    if models != [] {
      var before, last := models[..|models|-1], models[|models|-1];
      DefaultIsTheLastMarked(before, id);
      DefaultsGrow(models);
      hide IsDefaultAt, ModelId, IdsOf;
      if IsNew(before, last) && last.isDefault {
        assert IsDefaultAt(models, |before|, ModelId(last).value);
        assert forall j: nat :: IsLastDefault(models, j, id) ==> j == |before|;
        assert DefaultOf(models) == Some(id) ==> IsLastDefault(models, |before|, id);
      } else {
        assert forall j: nat :: IsLastDefault(models, j, id) <==> IsLastDefault(before, j, id);
      }
    } else {
      assert forall j: nat :: !IsLastDefault(models, j, id);
    }
  }

  lemma DefaultsGrow(models: seq<Model>)
    requires models != []
    ensures var before, last := models[..|models|-1], models[|models|-1];
            forall j: nat, id :: IsDefaultAt(models, j, id) <==>
              || IsDefaultAt(before, j, id)
              || (j == |before| && IsNew(before, last) && ModelId(last) == Some(id) && last.isDefault)
  {
    var before := models[..|models|-1];
    LastEntryIsNew(models);
    forall j: nat, id | j < |before| ensures IsDefaultAt(models, j, id) <==> IsDefaultAt(before, j, id) {
      assert forall i | 0 <= i <= j :: before[i] == models[i];
    }
    hide IsNew, ModelId;
    forall j: nat, id | j >= |before|
      ensures !IsDefaultAt(before, j, id) && (IsDefaultAt(models, j, id) ==> j == |before|)
    {
    }
  }

  lemma LastEntryIsNew(models: seq<Model>)
    requires models != []
    ensures var before, last := models[..|models|-1], models[|models|-1];
            forall id :: IsDefaultAt(models, |models| - 1, id) <==>
                         IsNew(before, last) && ModelId(last) == Some(id) && last.isDefault
  {
    var before, last := models[..|models|-1], models[|models|-1];
    forall id ensures IsFirstFor(models, |models| - 1, id) <==> IsNew(before, last) && ModelId(last) == Some(id) {
      assert ModelId(last) == Some(id) <==> IsFor(last, id);
      assert forall i | 0 <= i < |before| :: before[i] == models[i];
      if id in IdsOf(before) {
        var j := FirstEntryIsRead(before, id);
        assert IsFor(models[j], id);
      } else {
        NoFirstNoEntry(before, id);
      }
    }
  }

  ghost predicate IsLastDefault(models: seq<Model>, j: nat, id: Name) {
    IsDefaultAt(models, j, id) && forall other, k: nat | k > j :: !IsDefaultAt(models, k, other)
  }

  ghost predicate GivesEffort(models: seq<Model>, j: nat, id: Name, effort: Name) {
    && j < |models| && IsFor(models[j], id) && models[j].defaultEffort == Text(effort)
    && forall i | 0 <= i < j :: IsFor(models[i], id) ==> !models[i].defaultEffort.Text?
  }

  /** The default effort comes from the first entry for the model that names one. */
  lemma {:induction false} DefaultEffortIsTheFirstNamed(models: seq<Model>, id: Name, effort: Name)
    ensures DefaultEffort(models, id) == Some(effort) <==> exists j: nat :: GivesEffort(models, j, id, effort)
  {
    if models != [] {
      var rest := models[1..];
      DefaultEffortIsTheFirstNamed(rest, id, effort);
      assert ModelId(models[0]) == Some(id) <==> IsFor(models[0], id);
      if DefaultEffort(models, id) == Some(effort) {
        if IsFor(models[0], id) && models[0].defaultEffort.Text? {
          assert GivesEffort(models, 0, id, effort);
        } else {
          var j: nat :| GivesEffort(rest, j, id, effort);
          assert forall i | 0 < i <= j :: models[i] == rest[i-1];
          assert GivesEffort(models, j + 1, id, effort);
        }
      }
      if j: nat :| GivesEffort(models, j, id, effort) {
        if j > 0 {
          assert forall i | 0 <= i < j :: rest[i] == models[i+1];
          assert GivesEffort(rest, j - 1, id, effort);
        }
      }
    }
  }
}
