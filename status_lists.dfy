/** The device status lists built from a watched node, both by the HTTP routes
    and by the live listeners: SMS delivery states under
    `commandCenter/smsStatus/<uid>` and SIM forwarding states under
    `simForwardStatus/<uid>`. */
module StatusLists {
  import opened JsValue
  import opened Tree
  import opened Sorting
  import opened Lists

  /** `{ smsId, uid, ...obj }` for the child `smsId` of the uid's node. */
  function SmsStatusEntry(uid: string, f: Field): Json {
    Spread([Field("smsId", Str(f.key)), Field("uid", Str(uid))], f.val)
  }

  /** The entry holds the child key as `smsId` and the uid, unless the record has
      its own fields of those names, and every other field of the record. */
  lemma {:induction false} SmsStatusEntryFields(uid: string, f: Field)
    ensures SmsStatusEntry(uid, f).Obj?
    ensures Get(SmsStatusEntry(uid, f), "smsId") == if Has(f.val, "smsId") then Get(f.val, "smsId") else Str(f.key)
    ensures Get(SmsStatusEntry(uid, f), "uid") == if Has(f.val, "uid") then Get(f.val, "uid") else Str(uid)
    ensures forall k :: k != "smsId" && k != "uid" ==> Get(SmsStatusEntry(uid, f), k) == Get(f.val, k)
  {
    var head := [Field("smsId", Str(f.key)), Field("uid", Str(uid))];
    SpreadFields(head, f.val);
    forall k ensures Lookup(head, k) == if k == "uid" then Some(Str(uid)) else if k == "smsId" then Some(Str(f.key)) else None {
      Lookup2(head[0], head[1], k);
    }
  }

  function SmsStatusEntries(uid: string, fs: seq<Field>): seq<Json> {
    Entries(fs, f => SmsStatusEntry(uid, f))
  }

  /** The sort key of `(a, b) => b.at - a.at`; a key that is not a number counts as 0. */
  function AtKey(e: Json): int {
    ToNumber(Get(e, "at")).GetOr(0)
  }

  /** `Number(slot)` for a slot key; a key that is not numeric gives `NaN`,
      which JSON writes as `null`. */
  function SlotNumber(slot: string): Json {
    match StringToNumber(slot)
    case Some(n) => Num(n)
    case None => Null
  }

  /** `{ simSlot: Number(slot), ...obj }`. */
  function SimEntry(f: Field): Json {
    Spread([Field("simSlot", SlotNumber(f.key))], f.val)
  }

  /** The entry holds the slot number unless the record has its own `simSlot`,
      and every other field of the record. */
  lemma {:induction false} SimEntryFields(f: Field)
    ensures SimEntry(f).Obj?
    ensures Get(SimEntry(f), "simSlot") == if Has(f.val, "simSlot") then Get(f.val, "simSlot") else SlotNumber(f.key)
    ensures forall k :: k != "simSlot" ==> Get(SimEntry(f), k) == Get(f.val, k)
  {
    SpreadFields([Field("simSlot", SlotNumber(f.key))], f.val);
    forall k ensures Lookup([Field("simSlot", SlotNumber(f.key))], k) == if k == "simSlot" then Some(SlotNumber(f.key)) else None {
      Lookup1(Field("simSlot", SlotNumber(f.key)), k);
    }
  }

  function SimEntries(fs: seq<Field>): seq<Json> {
    Entries(fs, SimEntry)
  }

  /** The sort key of `(a, b) => b.updatedAt - a.updatedAt`. */
  function UpdatedAtKey(e: Json): int {
    ToNumber(Get(e, "updatedAt")).GetOr(0)
  }

  /** The SMS status list for a node read at `commandCenter/smsStatus/<uid>`:
      the entries of its children, latest `at` first; empty when the node does not exist. */
  function SmsStatusData(uid: string, raw: Json): seq<Json> {
    if Exists(raw) then SortDesc(SmsStatusEntries(uid, FieldsOf(raw)), AtKey) else []
  }

  /** The list is sorted, has one entry per child, and holds exactly the children's entries. */
  lemma {:induction false} SmsStatusDataShape(uid: string, raw: Json)
    ensures SortedDesc(SmsStatusData(uid, raw), AtKey)
    ensures |SmsStatusData(uid, raw)| == if Exists(raw) then |FieldsOf(raw)| else 0
    ensures Exists(raw) ==> multiset(SmsStatusData(uid, raw)) == multiset(SmsStatusEntries(uid, FieldsOf(raw)))
  {
  }

  /** The SIM forwarding list for a node read at `simForwardStatus/<uid>`:
      the entries of its slots, latest `updatedAt` first; empty when the node does not exist. */
  function SimForwardData(raw: Json): seq<Json> {
    if Exists(raw) then SortDesc(SimEntries(FieldsOf(raw)), UpdatedAtKey) else []
  }

  /** The list is sorted, has one entry per slot, and holds exactly the slots' entries. */
  lemma {:induction false} SimForwardDataShape(raw: Json)
    ensures SortedDesc(SimForwardData(raw), UpdatedAtKey)
    ensures |SimForwardData(raw)| == if Exists(raw) then |FieldsOf(raw)| else 0
    ensures Exists(raw) ==> multiset(SimForwardData(raw)) == multiset(SimEntries(FieldsOf(raw)))
  {
  }

  /** Every child of the node appears in the SMS status list, under its own key as
      `smsId` unless the record carries one. */
  lemma {:induction false} SmsStatusChild(uid: string, raw: Json, i: nat)
    requires Exists(raw) && i < |FieldsOf(raw)|
    ensures SmsStatusEntry(uid, FieldsOf(raw)[i]) in SmsStatusData(uid, raw)
    ensures !Has(FieldsOf(raw)[i].val, "smsId") ==>
              Get(SmsStatusEntry(uid, FieldsOf(raw)[i]), "smsId") == Str(FieldsOf(raw)[i].key)
  {
    var es := SmsStatusEntries(uid, FieldsOf(raw));
    assert es[i] == SmsStatusEntry(uid, FieldsOf(raw)[i]);
    assert es[i] in multiset(es);
    assert es[i] in multiset(SmsStatusData(uid, raw));
    SmsStatusEntryFields(uid, FieldsOf(raw)[i]);
  }

  /** Every slot of the node appears in the SIM list. */
  lemma {:induction false} SimForwardChild(raw: Json, i: nat)
    requires Exists(raw) && i < |FieldsOf(raw)|
    ensures SimEntry(FieldsOf(raw)[i]) in SimForwardData(raw)
  {
    var es := SimEntries(FieldsOf(raw));
    assert es[i] == SimEntry(FieldsOf(raw)[i]);
    assert es[i] in multiset(es);
    assert es[i] in multiset(SimForwardData(raw));
  }

  /** The list builders: the entries are pushed in key order, then sorted. */
  method SmsStatusList(uid: string, raw: Json) returns (list: seq<Json>)
    ensures list == SmsStatusData(uid, raw)
  {
    list := [];
    if Exists(raw) {
      list := PushEntries(FieldsOf(raw), f => SmsStatusEntry(uid, f));
      list := SortDesc(list, AtKey);
    }
  }

  method SimForwardList(raw: Json) returns (list: seq<Json>)
    ensures list == SimForwardData(raw)
  {
    list := [];
    if Exists(raw) {
      list := PushEntries(FieldsOf(raw), SimEntry);
      list := SortDesc(list, UpdatedAtKey);
    }
  }
}
