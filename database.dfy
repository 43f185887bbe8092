/** The lead store: an append-only table of lead records, read and updated
    by identifier or phone, and ranked by destination and travel type. The
    JSON file behind it is modelled as the sequence `LeadStore.leads`. */
module Leads {
  import opened Options
  import Numbers

  /** A scalar as it sits in a stored record. */
  datatype Value = Str(s: string) | Num(n: int)

  /** JavaScript truthiness of a stored scalar. */
  predicate Truthy(v: Value) {
    match v
    case Str(s) => s != ""
    case Num(n) => n != 0
  }

  /** `String(v)`. */
  function ValueToString(v: Value): string {
    match v
    case Str(s) => s
    case Num(n) => Numbers.IntToString(n)
  }

  /** `x || d`, where an absent key reads as `undefined`. */
  function OrDefault(x: Option<Value>, d: Value): (r: Value)
    ensures r == d || (x.Some? && r == x.value && Truthy(r))
    ensures x.Some? && Truthy(x.value) ==> r == x.value
  {
    if x.Some? && Truthy(x.value) then x.value else d
  }

  /** A lead record: its keys and values. */
  type Lead = map<string, Value>

  function Get(m: map<string, Value>, k: string): Option<Value> {
    if k in m then Some(m[k]) else None
  }

  /** The string-valued answers a dialogue collects, as stored values. */
  function Lift(data: map<string, string>): (m: map<string, Value>)
    ensures m.Keys == data.Keys
    ensures forall k :: k in data ==> m[k] == Str(data[k])
  {
    map k | k in data :: Str(data[k])
  }

  /** The keys `saveLead` always writes besides the caller's data. */
  const BaseKeys: set<string> :=
    {"id", "phone", "status", "tipo_atendimento", "notes", "created_at", "updated_at"}

  /** The record `saveLead(phone, data)` stores: identifier and phone first,
      then status, service type and notes defaulted, then every key of `data`
      overriding those, and the two timestamps last. */
  function BuildLead(phone: string, data: map<string, string>, id: int, isoNow: string): (lead: Lead)
    ensures lead.Keys == data.Keys + BaseKeys
  {
    var fields := Lift(data);
    var defaults := map[
      "id" := Num(id),
      "phone" := Str(phone),
      "status" := OrDefault(Get(fields, "status"), Str("Novo")),
      "tipo_atendimento" := OrDefault(Get(fields, "tipo_atendimento"), Str("Orçamento")),
      "notes" := OrDefault(Get(fields, "notes"), Str(""))
    ];
    defaults + fields + map["created_at" := Str(isoNow), "updated_at" := Str(isoNow)]
  }

  /** What each key of a built record holds: the caller's value where `data`
      has the key (timestamps excepted), the default otherwise. */
  lemma BuildLeadFields(phone: string, data: map<string, string>, id: int, isoNow: string)
    ensures var lead := BuildLead(phone, data, id, isoNow);
      && (forall k :: k in data && k != "created_at" && k != "updated_at" ==> lead[k] == Str(data[k]))
      && lead["id"] == (if "id" in data then Str(data["id"]) else Num(id))
      && lead["phone"] == Str(if "phone" in data then data["phone"] else phone)
      && lead["status"] == Str(if "status" in data then data["status"] else "Novo")
      && lead["tipo_atendimento"] == Str(if "tipo_atendimento" in data then data["tipo_atendimento"] else "Orçamento")
      && lead["notes"] == Str(if "notes" in data then data["notes"] else "")
      && lead["created_at"] == Str(isoNow) && lead["updated_at"] == Str(isoNow)
  {
    var fields := Lift(data);
    var defaults := map[
      "id" := Num(id),
      "phone" := Str(phone),
      "status" := OrDefault(Get(fields, "status"), Str("Novo")),
      "tipo_atendimento" := OrDefault(Get(fields, "tipo_atendimento"), Str("Orçamento")),
      "notes" := OrDefault(Get(fields, "notes"), Str(""))
    ];
    var stamps := map["created_at" := Str(isoNow), "updated_at" := Str(isoNow)];
    var lead := BuildLead(phone, data, id, isoNow);
    assert lead == defaults + fields + stamps;
    forall k | k in data && k != "created_at" && k != "updated_at" ensures lead[k] == Str(data[k]) {
      assert k !in stamps && k in fields;
    }
  }

  predicate HasId(lead: Lead, id: Value) {
    "id" in lead && lead["id"] == id
  }

  predicate HasPhone(lead: Lead, phone: string) {
    "phone" in lead && lead["phone"] == Str(phone)
  }

  /** `leads.findIndex(l => l.id === id)`, with -1 written as None. */
  function FindIndex(leads: seq<Lead>, id: Value): (r: Option<nat>)
    ensures r.Some? ==> r.value < |leads| && HasId(leads[r.value], id)
    ensures r.Some? ==> forall j :: 0 <= j < r.value ==> !HasId(leads[j], id)
    ensures r.None? ==> forall j :: 0 <= j < |leads| ==> !HasId(leads[j], id)
  {
    if leads == [] then None
    else if HasId(leads[0], id) then Some(0)
    else match FindIndex(leads[1..], id)
      case None => None
      case Some(i) => Some(i + 1)
  }

  /** `leads.filter(l => l.phone === phone)`. */
  function FilterByPhone(leads: seq<Lead>, phone: string): (r: seq<Lead>)
    ensures |r| <= |leads|
    ensures forall l :: l in r <==> l in leads && HasPhone(l, phone)
  {
    if leads == [] then []
    else if HasPhone(leads[0], phone) then [leads[0]] + FilterByPhone(leads[1..], phone)
    else FilterByPhone(leads[1..], phone)
  }

  /** Filtering keeps store order: the matches of a concatenation are the
      matches of the first part followed by those of the second. */
  lemma {:induction false} FilterByPhoneAppend(a: seq<Lead>, b: seq<Lead>, phone: string)
    ensures FilterByPhone(a + b, phone) == FilterByPhone(a, phone) + FilterByPhone(b, phone)
  {
    if a != [] {
      assert (a + b)[1..] == a[1..] + b;
      FilterByPhoneAppend(a[1..], b, phone);
    } else {
      assert a + b == b;
    }
  }

  /** Appending a record never changes which earlier record an identifier
      finds; a fresh identifier finds the appended record. */
  lemma {:induction false} FindIndexAppend(leads: seq<Lead>, lead: Lead, id: Value)
    ensures FindIndex(leads, id).Some? ==> FindIndex(leads + [lead], id) == FindIndex(leads, id)
    ensures FindIndex(leads, id).None? ==>
      FindIndex(leads + [lead], id) == if HasId(lead, id) then Some(|leads|) else None
  {
    if leads != [] {
      assert (leads + [lead])[1..] == leads[1..] + [lead];
      FindIndexAppend(leads[1..], lead, id);
    }
  }

  /** `Object.assign(leads[i], fields)`: the in-place field writes of the
      update operations. */
  function Patch(leads: seq<Lead>, i: nat, fields: map<string, Value>): (r: seq<Lead>)
    requires i < |leads|
    ensures |r| == |leads| && r[i] == leads[i] + fields
    ensures forall j :: 0 <= j < |leads| && j != i ==> r[j] == leads[j]
  {
    leads[i := leads[i] + fields]
  }

  /** Field writes that leave `id` alone do not move any lookup by identifier. */
  lemma PatchKeepsFindIndex(leads: seq<Lead>, i: nat, fields: map<string, Value>, id: Value)
    requires i < |leads| && "id" !in fields
    ensures FindIndex(Patch(leads, i, fields), id) == FindIndex(leads, id)
  {
    var r := Patch(leads, i, fields);
    assert forall j :: 0 <= j < |leads| ==> (HasId(r[j], id) <==> HasId(leads[j], id));
    FindIndexSameIds(leads, r, id);
  }

  /** `FindIndex` depends only on which records carry the identifier. */
  lemma {:induction false} FindIndexSameIds(a: seq<Lead>, b: seq<Lead>, id: Value)
    requires |a| == |b|
    requires forall j :: 0 <= j < |a| ==> (HasId(a[j], id) <==> HasId(b[j], id))
    ensures FindIndex(a, id) == FindIndex(b, id)
  {
    if a != [] {
      FindIndexSameIds(a[1..], b[1..], id);
    }
  }

  /** The attendant fields `updateLeadAssignment` receives (each may be absent). */
  datatype AssignmentInput = AssignmentInput(name: Option<Value>, id: Option<Value>, number: Option<Value>)

  // ---------------------------------------------------------------------------
  // Ranking by a field (destination, travel type)

  /** The map key a record contributes to the tally of `field`: present only
      when the field is truthy; object keys are strings. */
  function KeyOf(lead: Lead, field: string): Option<string> {
    if field in lead && Truthy(lead[field]) then Some(ValueToString(lead[field])) else None
  }

  /** How many records contribute `key` to the tally of `field`. */
  function Count(leads: seq<Lead>, field: string, key: string): nat {
    if leads == [] then 0
    else Count(leads[..|leads| - 1], field, key) + (if KeyOf(leads[|leads| - 1], field) == Some(key) then 1 else 0)
  }

  /** The distinct keys of `field`, in order of first occurrence. */
  function DistinctKeys(leads: seq<Lead>, field: string): seq<string> {
    if leads == [] then []
    else
      var keys := DistinctKeys(leads[..|leads| - 1], field);
      var k := KeyOf(leads[|leads| - 1], field);
      if k.Some? && k.value !in keys then keys + [k.value] else keys
  }

  /** A key is listed exactly when some record contributes it. */
  lemma {:induction false} DistinctKeysComplete(leads: seq<Lead>, field: string, key: string)
    ensures key in DistinctKeys(leads, field) <==> Count(leads, field, key) > 0
  {
    if leads != [] {
      DistinctKeysComplete(leads[..|leads| - 1], field, key);
    }
  }

  predicate NoDuplicates(s: seq<string>) {
    forall i, j :: 0 <= i < j < |s| ==> s[i] != s[j]
  }

  /** No key is listed twice. */
  lemma {:induction false} DistinctKeysDistinct(leads: seq<Lead>, field: string)
    ensures NoDuplicates(DistinctKeys(leads, field))
  {
    if leads != [] {
      var keys := DistinctKeys(leads[..|leads| - 1], field);
      DistinctKeysDistinct(leads[..|leads| - 1], field);
      var k := KeyOf(leads[|leads| - 1], field);
      if k.Some? && k.value !in keys {
        var r := keys + [k.value];
        forall i, j | 0 <= i < j < |r| ensures r[i] != r[j] {
          if j == |keys| {
            assert r[i] == keys[i] && keys[i] in keys;
          } else {
            assert r[i] == keys[i] && r[j] == keys[j];
          }
        }
      }
    }
  }

  /** One row of a ranking: `{destino, count}` or `{tipo, count}`. */
  datatype Entry = Entry(key: string, count: nat)

  predicate NonIncreasing(s: seq<Entry>) {
    forall i, j :: 0 <= i < j < |s| ==> s[i].count >= s[j].count
  }

  /** One row per key. */
  predicate NoDuplicateKeys(s: seq<Entry>) {
    forall i, j :: 0 <= i < j < |s| ==> s[i].key != s[j].key
  }

  /** In a sequence with one row per key, no row occurs twice. */
  lemma {:induction false} OnceEach(s: seq<Entry>, x: Entry)
    requires NoDuplicateKeys(s)
    ensures multiset(s)[x] <= 1
  {
    if s != [] {
      var init := s[..|s| - 1];
      assert s == init + [s[|s| - 1]];
      OnceEach(init, x);
    }
  }

  /** A row found at two positions occurs at least twice. */
  lemma Twice(s: seq<Entry>, i: nat, j: nat)
    requires i < j < |s| && s[i] == s[j]
    ensures multiset(s)[s[i]] >= 2
  {
    assert s == s[..j] + s[j..];
    assert s[i] in s[..j];
    assert s[j] in s[j..];
  }

  predicate Listed(s: seq<Entry>, key: string) {
    exists j :: 0 <= j < |s| && s[j].key == key
  }

  /** Places `e` after every entry whose count is at least its own. */
  function Insert(e: Entry, s: seq<Entry>): (r: seq<Entry>)
    requires NonIncreasing(s)
    ensures NonIncreasing(r)
    ensures multiset(r) == multiset(s) + multiset{e}
  {
    if s == [] then [e]
    else if s[0].count >= e.count then
      var rest := Insert(e, s[1..]);
      HeadBoundsInsert(e, s, rest);
      [s[0]] + rest
    else
      [e] + s
  }

  /** The head of a ranked sequence outranks everything after it, and `e`
      when it is inserted behind the head. */
  lemma HeadBoundsInsert(e: Entry, s: seq<Entry>, rest: seq<Entry>)
    requires s != [] && NonIncreasing(s) && s[0].count >= e.count
    requires multiset(rest) == multiset(s[1..]) + multiset{e}
    ensures forall j :: 0 <= j < |rest| ==> rest[j].count <= s[0].count
    ensures multiset([s[0]] + rest) == multiset(s) + multiset{e}
  {
    assert s == [s[0]] + s[1..];
    forall j | 0 <= j < |rest| ensures rest[j].count <= s[0].count {
      assert rest[j] in multiset(rest);
      if rest[j] != e {
        assert rest[j] in multiset(s[1..]);
        var p :| 0 <= p < |s[1..]| && s[1..][p] == rest[j];
        assert s[p + 1] == rest[j];
      }
    }
  }

  /** `entries.sort((a, b) => b[1] - a[1])`: a stable sort by count, largest first. */
  function SortByCount(s: seq<Entry>): (r: seq<Entry>)
    ensures NonIncreasing(r)
    ensures multiset(r) == multiset(s)
  {
    if s == [] then []
    else
      assert s == s[..|s| - 1] + [s[|s| - 1]];
      Insert(s[|s| - 1], SortByCount(s[..|s| - 1]))
  }

  /** The end index `slice(0, limit)` uses on a sequence of length `len`. */
  function SliceEnd(limit: int, len: nat): (e: nat)
    ensures e <= len
    ensures limit >= 0 ==> e == if limit < len then limit else len
  {
    if limit >= 0 then (if limit < len then limit else len)
    else if len + limit > 0 then len + limit else 0
  }

  /** Every row of `ranking` carries the true count of its key. */
  predicate CountsAgree(leads: seq<Lead>, field: string, ranking: seq<Entry>) {
    forall j :: 0 <= j < |ranking| ==>
      ranking[j].count == Count(leads, field, ranking[j].key) && ranking[j].count > 0
  }

  /** The rows of the tally, one per distinct key with its count, sorted:
      every row is true, rows are ranked, each key once, and every key with a
      positive count is present. */
  lemma RankingOfTally(leads: seq<Lead>, field: string, entries: seq<Entry>)
    requires |entries| == |DistinctKeys(leads, field)|
    requires forall j :: 0 <= j < |entries| ==>
      entries[j] == Entry(DistinctKeys(leads, field)[j], Count(leads, field, DistinctKeys(leads, field)[j]))
    ensures var ranking := SortByCount(entries);
      && CountsAgree(leads, field, ranking)
      && NonIncreasing(ranking) && NoDuplicateKeys(ranking)
      && (forall k :: Listed(ranking, k) <==> Count(leads, field, k) > 0)
      && |ranking| == |entries|
  {
    var order := DistinctKeys(leads, field);
    var ranking := SortByCount(entries);
    assert |ranking| == |multiset(ranking)| == |multiset(entries)| == |entries|;
    forall j | 0 <= j < |ranking|
      ensures ranking[j].count == Count(leads, field, ranking[j].key) && ranking[j].count > 0
    {
      assert ranking[j] in multiset(entries);
      var p :| 0 <= p < |entries| && entries[p] == ranking[j];
      DistinctKeysComplete(leads, field, order[p]);
    }
    forall k ensures Listed(ranking, k) <==> Count(leads, field, k) > 0 {
      DistinctKeysComplete(leads, field, k);
      if Count(leads, field, k) > 0 {
        var p :| 0 <= p < |order| && order[p] == k;
        assert entries[p] in multiset(ranking);
        var j :| 0 <= j < |ranking| && ranking[j] == entries[p];
        assert ranking[j].key == k;
      }
    }
    DistinctKeysDistinct(leads, field);
    assert NoDuplicateKeys(entries);
    forall i, j | 0 <= i < j < |ranking| ensures ranking[i].key != ranking[j].key {
      if ranking[i].key == ranking[j].key {
        assert ranking[i] == ranking[j];
        Twice(ranking, i, j);
        OnceEach(entries, ranking[i]);
        assert false;
      }
    }
  }

  /** A leading slice of a true ranking is a true ranking, and whatever it
      leaves out is outnumbered by everything it keeps. */
  lemma TopRows(leads: seq<Lead>, field: string, ranking: seq<Entry>, n: nat)
    requires n <= |ranking|
    requires CountsAgree(leads, field, ranking)
    requires NonIncreasing(ranking) && NoDuplicateKeys(ranking)
    requires forall k :: Listed(ranking, k) <==> Count(leads, field, k) > 0
    ensures var top := ranking[..n];
      && CountsAgree(leads, field, top)
      && NonIncreasing(top) && NoDuplicateKeys(top)
      && (forall k :: Count(leads, field, k) > 0 && !Listed(top, k) ==>
            forall j :: 0 <= j < |top| ==> top[j].count >= Count(leads, field, k))
  {
    var top := ranking[..n];
    forall k | Count(leads, field, k) > 0 && !Listed(top, k)
      ensures forall j :: 0 <= j < |top| ==> top[j].count >= Count(leads, field, k)
    {
      assert Listed(ranking, k);
      var p :| 0 <= p < |ranking| && ranking[p].key == k;
      assert n <= p;
    }
  }

  /** What one more record adds to the tally: one to the count of its key,
      and its key at the end of the list when it is new. */
  lemma TallyStep(leads: seq<Lead>, i: nat, field: string)
    requires i < |leads|
    ensures var key := KeyOf(leads[i], field);
      && (forall k :: Count(leads[..i + 1], field, k) ==
                      Count(leads[..i], field, k) + (if key == Some(k) then 1 else 0))
      && DistinctKeys(leads[..i + 1], field) ==
           var keys := DistinctKeys(leads[..i], field);
           if key.Some? && key.value !in keys then keys + [key.value] else keys
  {
    assert leads[..i + 1][..i] == leads[..i];
  }

  class LeadStore {
    /** The records, in insertion order. */
    var leads: seq<Lead>

    constructor ()
      ensures leads == []
    {
      leads := [];
    }

    /** `saveLead(phone, data)`. The identifier (`Date.now()`) and the ISO
        timestamp are supplied; `persisted` says whether writing the file
        succeeded: when it throws, nothing is stored and null is returned. */
    method SaveLead(phone: string, data: map<string, string>, id: int, isoNow: string, persisted: bool)
      returns (lead: Option<Lead>)
      modifies this
      ensures persisted ==> lead == Some(BuildLead(phone, data, id, isoNow))
      ensures !persisted ==> lead == None
      ensures leads == if persisted then old(leads) + [lead.value] else old(leads)
    {
      if !persisted {
        return None;
      }
      var record := BuildLead(phone, data, id, isoNow);
      leads := leads + [record];
      lead := Some(record);
    }

    /** `getLeadById(id)`: the first record carrying the identifier. */
    function GetLeadById(id: Value): (r: Option<Lead>)
      reads this
      ensures r.None? <==> forall j :: 0 <= j < |leads| ==> !HasId(leads[j], id)
      ensures r.Some? ==> exists i :: 0 <= i < |leads| && leads[i] == r.value && HasId(r.value, id) &&
                                     (forall j :: 0 <= j < i ==> !HasId(leads[j], id))
    {
      match FindIndex(leads, id)
      case None => None
      case Some(i) => Some(leads[i])
    }

    /** `getLeadsByPhone(phone)`: the records with that phone, in store order. */
    function GetLeadsByPhone(phone: string): (r: seq<Lead>)
      reads this
      ensures forall l :: l in r <==> l in leads && HasPhone(l, phone)
    {
      FilterByPhone(leads, phone)
    }

    /** The shared shape of the three update operations: find the first
        record with the identifier, assign `fields` on it, write the file. */
    method Update(id: Value, fields: map<string, Value>, persisted: bool) returns (r: Option<Lead>)
      modifies this
      ensures var i := FindIndex(old(leads), id);
        (i.None? || !persisted ==> r == None && leads == old(leads)) &&
        (i.Some? && persisted ==> leads == Patch(old(leads), i.value, fields) && r == Some(leads[i.value]))
    {
      var i := FindIndex(leads, id);
      if i.None? || !persisted {
        return None;
      }
      leads := Patch(leads, i.value, fields);
      r := Some(leads[i.value]);
    }

    /** `updateLeadStatus(id, status)`. */
    method UpdateLeadStatus(id: Value, status: Value, isoNow: string, persisted: bool) returns (r: Option<Lead>)
      modifies this
      ensures var i := FindIndex(old(leads), id);
        (i.None? || !persisted ==> r == None && leads == old(leads)) &&
        (i.Some? && persisted ==>
           leads == Patch(old(leads), i.value, map["status" := status, "updated_at" := Str(isoNow)]) &&
           r == Some(leads[i.value]))
    {
      r := Update(id, map["status" := status, "updated_at" := Str(isoNow)], persisted);
    }

    /** `updateLeadAssignment(id, attendant)`: each attendant field, or "". */
    method UpdateLeadAssignment(id: Value, attendant: Option<AssignmentInput>, isoNow: string, persisted: bool)
      returns (r: Option<Lead>)
      modifies this
      ensures var i := FindIndex(old(leads), id);
        (i.None? || !persisted ==> r == None && leads == old(leads)) &&
        (i.Some? && persisted ==>
           leads == Patch(old(leads), i.value, AssignmentFields(attendant, isoNow)) &&
           r == Some(leads[i.value]))
    {
      r := Update(id, AssignmentFields(attendant, isoNow), persisted);
    }

    /** `updateLeadNotes(id, notes)`: `String(notes || "")`. */
    method UpdateLeadNotes(id: Value, notes: Option<Value>, isoNow: string, persisted: bool)
      returns (r: Option<Lead>)
      modifies this
      ensures var i := FindIndex(old(leads), id);
        (i.None? || !persisted ==> r == None && leads == old(leads)) &&
        (i.Some? && persisted ==>
           leads == Patch(old(leads), i.value, map["notes" := NotesValue(notes), "updated_at" := Str(isoNow)]) &&
           r == Some(leads[i.value]))
    {
      r := Update(id, map["notes" := NotesValue(notes), "updated_at" := Str(isoNow)], persisted);
    }

    /** Counts the truthy values of `field` over the store, one row per
        distinct key, ranked by count, largest first. */
    method Tally(field: string) returns (ranking: seq<Entry>)
      ensures CountsAgree(leads, field, ranking)
      ensures NonIncreasing(ranking) && NoDuplicateKeys(ranking)
      ensures forall k :: Listed(ranking, k) <==> Count(leads, field, k) > 0
      ensures |ranking| == |DistinctKeys(leads, field)|
    {
      var counts: map<string, nat> := map[];
      var order: seq<string> := [];
      var i := 0;
      while i < |leads|
        invariant 0 <= i <= |leads|
        invariant order == DistinctKeys(leads[..i], field)
        invariant forall k :: k in counts <==> k in order
        invariant forall k :: k in counts ==> counts[k] == Count(leads[..i], field, k)
      {
        var key := KeyOf(leads[i], field);
        TallyStep(leads, i, field);
        if key.Some? {
          DistinctKeysComplete(leads[..i], field, key.value);
          if key.value in counts {
            counts := counts[key.value := counts[key.value] + 1];
          } else {
            counts := counts[key.value := 1];
            order := order + [key.value];
          }
        }
        i := i + 1;
      }
      assert leads[..i] == leads;
      var entries := seq(|order|, j requires 0 <= j < |order| => Entry(order[j], counts[order[j]]));
      ranking := SortByCount(entries);
      RankingOfTally(leads, field, entries);
    }

    /** `getTopDestinations(limit)`: at most `limit` rows, counts true, ranked,
        and no unlisted destination outnumbers a listed one. */
    method GetTopDestinations(limit: int) returns (top: seq<Entry>)
      ensures CountsAgree(leads, "destino", top)
      ensures NonIncreasing(top) && NoDuplicateKeys(top)
      ensures |top| == SliceEnd(limit, |DistinctKeys(leads, "destino")|)
      ensures forall k :: Count(leads, "destino", k) > 0 && !Listed(top, k) ==>
        forall j :: 0 <= j < |top| ==> top[j].count >= Count(leads, "destino", k)
    {
      var ranking := Tally("destino");
      top := ranking[..SliceEnd(limit, |ranking|)];
      TopRows(leads, "destino", ranking, |top|);
    }

    /** `getTopTravelTypes()`: every travel type with its count, ranked. */
    method GetTopTravelTypes() returns (top: seq<Entry>)
      ensures CountsAgree(leads, "tipo_viagem", top)
      ensures NonIncreasing(top) && NoDuplicateKeys(top)
      ensures forall k :: Listed(top, k) <==> Count(leads, "tipo_viagem", k) > 0
    {
      top := Tally("tipo_viagem");
    }
  }

  /** The fields `updateLeadAssignment` writes: `attendant?.x || ""`. */
  function AssignmentFields(attendant: Option<AssignmentInput>, isoNow: string): (m: map<string, Value>)
    ensures m.Keys == {"atendente_nome", "atendente_id", "atendente_numero", "updated_at"}
    ensures attendant.None? ==> m["atendente_nome"] == m["atendente_id"] == m["atendente_numero"] == Str("")
    ensures attendant.Some? ==>
      && m["atendente_nome"] == OrDefault(attendant.value.name, Str(""))
      && m["atendente_id"] == OrDefault(attendant.value.id, Str(""))
      && m["atendente_numero"] == OrDefault(attendant.value.number, Str(""))
    ensures m["updated_at"] == Str(isoNow)
  {
    var name := if attendant.Some? then attendant.value.name else None;
    var ident := if attendant.Some? then attendant.value.id else None;
    var number := if attendant.Some? then attendant.value.number else None;
    map[
      "atendente_nome" := OrDefault(name, Str("")),
      "atendente_id" := OrDefault(ident, Str("")),
      "atendente_numero" := OrDefault(number, Str("")),
      "updated_at" := Str(isoNow)
    ]
  }

  /** `String(notes || "")`: always a string, empty for a falsy argument. */
  function NotesValue(notes: Option<Value>): (v: Value)
    ensures v.Str?
    ensures (notes.None? || !Truthy(notes.value)) <==> v == Str("")
    ensures notes.Some? && Truthy(notes.value) ==> v == Str(ValueToString(notes.value))
  {
    Str(ValueToString(OrDefault(notes, Str(""))))
  }
}
