/**
 * The UFA chaincode over its world state. The ledger is one key-value store of
 * JSON text (`state`), read and written one key at a time; the operations are
 * read-modify-write sequences over it, run one call at a time:
 * - the primary record of agreement N is stored under the key N itself;
 * - the master index, the list of every agreement number created, under ALL_RECS;
 * - the audit ledger of N, the raw payloads of its create and updates, under
 *   UFA_TRXN_HISTORY_ + N;
 * - the invoice index of N, the identifiers of its invoices, under
 *   UFA_INVOICE_PREFIX_ + N (never written by this chaincode; see `NoInvoicesIndexed`).
 */
module UFAChainCode {
  import opened Wrappers
  import opened JsonCodec
  import opened Numbers
  import opened Validation
  import opened Reconciliation

  const AllElementsKey := "ALL_RECS"
  const UfaTrxnPrefix := "UFA_TRXN_HISTORY_"
  const UfaInvoicePrefix := "UFA_INVOICE_PREFIX_"

  function HistoryKey(ufaNumber: string): string {
    UfaTrxnPrefix + ufaNumber
  }

  function InvoiceKey(ufaNumber: string): string {
    UfaInvoicePrefix + ufaNumber
  }

  /** The invoice-index key of one agreement is never the history key of another, nor ALL_RECS. */
  lemma InvoiceKeyDistinct(m: string, n: string)
    ensures InvoiceKey(m) != HistoryKey(n) && InvoiceKey(m) != AllElementsKey
  {
    assert InvoiceKey(m)[4] == 'I';
    assert HistoryKey(n)[4] == 'T';
  }

  /** An index that lists nothing: undecodable, or the empty list. */
  predicate ListsNothing(list: Option<seq<string>>) {
    list.None? || list.value == []
  }

  /** No invoice index in `s` lists an invoice. */
  ghost predicate NoInvoicesIn(c: Codec, s: map<string, string>) {
    forall m :: InvoiceKey(m) in s ==> ListsNothing(c.decodeStrings(s[InvoiceKey(m)]))
  }

  /** One write keeps NoInvoicesIn when it stores no list, or writes no invoice-index key. */
  lemma NoInvoicesAfterWrite(c: Codec, s: map<string, string>, key: string, bytes: string)
    requires NoInvoicesIn(c, s)
    requires ListsNothing(c.decodeStrings(bytes)) || forall m :: key != InvoiceKey(m)
    ensures NoInvoicesIn(c, s[key := bytes])
  {
  }

  /** The history key of an agreement is never an invoice-index key. */
  lemma HistoryKeyNotInvoiceKey(n: string)
    ensures forall m :: HistoryKey(n) != InvoiceKey(m)
  {
    forall m ensures HistoryKey(n) != InvoiceKey(m) {
      InvoiceKeyDistinct(m, n);
    }
  }

  /** The result of updateRecord: Go panics when it writes into a nil map. */
  datatype MergeResult = Panic | Updated(record: Option<Fields>)

  /** The record an update leaves: the existing fields overridden by the changed ones; nil stays nil. */
  function MergeFields(existing: Option<Fields>, updates: Fields): Option<Fields> {
    if existing.Some? then Some(existing.value + updates) else None
  }

  /**
   * updateRecord: writes every changed field into the existing record. Writing
   * into a nil record panics, unless there is nothing to write.
   */
  method UpdateRecord(existing: Option<Fields>, fieldsToUpdate: Option<Fields>) returns (r: MergeResult)
    ensures r.Panic? <==> existing.None? && fieldsToUpdate.Some? && fieldsToUpdate.value != map[]
    ensures r.Updated? && existing.None? ==> r.record.None?
    ensures r.Updated? && existing.Some? ==>
      var updates := fieldsToUpdate.GetOr(map[]);
      && r.record.Some?
      && r.record.value.Keys == existing.value.Keys + updates.Keys
      && (forall k :: k in updates ==> r.record.value[k] == updates[k])
      && (forall k :: k in existing.value && k !in updates ==> r.record.value[k] == existing.value[k])
  {
    var updates := fieldsToUpdate.GetOr(map[]);
    var record := existing;
    var todo := updates.Keys;
    while todo != {}
      invariant todo <= updates.Keys
      invariant record.None? <==> existing.None?
      invariant record.None? ==> todo == updates.Keys
      invariant record.Some? ==> record.value.Keys == existing.value.Keys + (updates.Keys - todo)
      invariant record.Some? ==> forall k :: k in updates && k !in todo ==> record.value[k] == updates[k]
      invariant record.Some? ==> forall k :: k in existing.value && (k !in updates || k in todo) ==> record.value[k] == existing.value[k]
      decreases todo
    {
      var key :| key in todo;
      if record.None? {
        return Panic;
      }
      record := Some(record.value[key := updates[key]]);
      todo := todo - {key};
    }
    return Updated(record);
  }

  class Ledger {
    const codec: Codec
    var state: map<string, string>

    constructor (codec: Codec, state: map<string, string>)
      ensures this.codec == codec && this.state == state
    {
      this.codec := codec;
      this.state := state;
    }

    /** GetState: the bytes under `key`, None when it is unset. */
    function Get(key: string): Option<string>
      reads this
    {
      if key in state then Some(state[key]) else None
    }

    /** GetState then Unmarshal into a map: nil when unset or not a JSON object. */
    function RecordAt(key: string): Option<Fields>
      reads this
    {
      if key in state then codec.decodeObject(state[key]) else None
    }

    /** GetState then Unmarshal into a []string: None for the error, which an unset key also gives. */
    function StoredList(key: string): Option<seq<string>>
      reads this
    {
      if key in state then codec.decodeStrings(state[key]) else None
    }

    /** The list appendUFATransactionHistory extends: empty when the key is unset. */
    function PriorHistory(ufaNumber: string): Option<seq<string>>
      reads this
    {
      var key := HistoryKey(ufaNumber);
      if key in state then codec.decodeStrings(state[key]) else Some([])
    }

    /** getAllRecordsList: the master index. An unset ALL_RECS is an error, not an empty list. */
    function GetAllRecordsList(): (names: Option<seq<string>>)
      reads this
      ensures AllElementsKey !in state ==> names.None?
      ensures AllElementsKey in state ==> names == codec.decodeStrings(state[AllElementsKey])
    {
      StoredList(AllElementsKey)
    }

    /** getAllInvloiceList: the invoice index of an agreement; None when unset or undecodable. */
    function GetAllInvoiceList(ufaNumber: string): (ids: Option<seq<string>>)
      reads this
      ensures InvoiceKey(ufaNumber) !in state ==> ids.None?
      ensures InvoiceKey(ufaNumber) in state ==> ids == codec.decodeStrings(state[InvoiceKey(ufaNumber)])
    {
      StoredList(InvoiceKey(ufaNumber))
    }

    /** Some invoice in the agreement's invoice index is for `billingPeriod`. */
    predicate InvoiceRaised(ufaNumber: string, billingPeriod: string)
      reads this
    {
      var ids := GetAllInvoiceList(ufaNumber).GetOr([]);
      exists i :: 0 <= i < |ids| && Field(RecordAt(ids[i]), "billingPeriod") == billingPeriod
    }

    /** Every number in the master index has a primary record. */
    ghost predicate IndexHasRecords()
      reads this
    {
      var names := GetAllRecordsList();
      names.Some? ==> forall i :: 0 <= i < |names.value| ==> names.value[i] in state
    }

    /**
     * No invoice index lists an invoice: each one is unset, undecodable or empty.
     * The empty store has it, and every store this chaincode writes keeps it,
     * since it never writes a list under a UFA_INVOICE_PREFIX_ key.
     */
    ghost predicate NoInvoicesIndexed()
      reads this
    {
      NoInvoicesIn(codec, state)
    }

    /** The empty world state has no invoice index. */
    lemma EmptyStoreNoInvoices()
      requires state == map[]
      ensures NoInvoicesIndexed()
    {
    }

    /**
     * While no invoice is indexed, the duplicate-period check never fires: the
     * "already raised" line cannot come out of a store this chaincode built.
     */
    lemma DuplicatePeriodUnreachable(payload: string, ufaReadFails: bool)
      requires NoInvoicesIndexed()
      ensures forall m, p :: !InvoiceRaised(m, p)
      ensures |codec.decodeObjects(payload)| >= 2 ==>
        ReconcileMessage(payload, ufaReadFails) != AlreadyRaisedMsg(Field(codec.decodeObjects(payload)[0], "billingPeriod"))
    {
      forall m, p ensures !InvoiceRaised(m, p) {
        assert ListsNothing(GetAllInvoiceList(m));
      }
      var invoices := codec.decodeObjects(payload);
      if |invoices| >= 2 {
        MessagesDistinct(Field(invoices[0], "billingPeriod"));
      }
    }

    /**
     * The message validateInvoiceDetails gives for `payload`, the JSON list of
     * invoices, in the current state; `ufaReadFails` is whether GetState of the
     * agreement named by the first invoice reports an error.
     */
    function ReconcileMessage(payload: string, ufaReadFails: bool): string
      reads this
    {
      var invoices := codec.decodeObjects(payload);
      if |invoices| >= 2 && !ufaReadFails then
        var ufaNumber := Field(invoices[0], "ufanumber");
        ReconcileDecision(invoices, false, RecordAt(ufaNumber),
                          InvoiceRaised(ufaNumber, Field(invoices[0], "billingPeriod")))
      else
        ReconcileDecision(invoices, ufaReadFails, None, false)
    }

    /**
     * A pair whose billing period is already in the agreement's invoice index is
     * refused as a duplicate, whatever the amounts and totals.
     */
    lemma DuplicatePeriodRejected(payload: string)
      requires |codec.decodeObjects(payload)| >= 2
      requires var first := codec.decodeObjects(payload)[0];
        InvoiceRaised(Field(first, "ufanumber"), Field(first, "billingPeriod"))
      ensures ReconcileMessage(payload, false)
           == AlreadyRaisedMsg(Field(codec.decodeObjects(payload)[0], "billingPeriod"))
    {
    }

    /**
     * "Invalid UFA provided" comes only from a failed read: an agreement number
     * that is unset, or whose record does not decode, reads as an empty record.
     */
    lemma InvalidOnlyOnReadError(payload: string)
      ensures ReconcileMessage(payload, false) != InvalidUfaMsg
      ensures |codec.decodeObjects(payload)| >= 2 ==> ReconcileMessage(payload, true) == InvalidUfaMsg
    {
    }

    /** getInvoicesForUFA: the records of the agreement's invoices, in index order. */
    method GetInvoicesForUFA(ufaNumber: string) returns (outputRecords: seq<Option<Fields>>)
      ensures var ids := GetAllInvoiceList(ufaNumber).GetOr([]);
        && |outputRecords| == |ids|
        && forall i :: 0 <= i < |ids| ==> outputRecords[i] == RecordAt(ids[i])
    {
      outputRecords := [];
      var recordsList := GetAllInvoiceList(ufaNumber);
      if recordsList.Some? {
        var ids := recordsList.value;
        for i := 0 to |ids|
          invariant |outputRecords| == i
          invariant forall j :: 0 <= j < i ==> outputRecords[j] == RecordAt(ids[j])
        {
          outputRecords := outputRecords + [RecordAt(ids[i])];
        }
      }
    }

    /** checkInvoicesRaised: scans the agreement's invoices for the billing period. */
    method CheckInvoicesRaised(ufaNumber: string, billingPeriod: string) returns (isAvailable: bool)
      ensures isAvailable <==> InvoiceRaised(ufaNumber, billingPeriod)
    {
      isAvailable := false;
      var allInvoices := GetInvoicesForUFA(ufaNumber);
      if |allInvoices| > 0 {
        var i := 0;
        while i < |allInvoices|
          invariant 0 <= i <= |allInvoices|
          invariant forall j :: 0 <= j < i ==> Field(allInvoices[j], "billingPeriod") != billingPeriod
        {
          if Field(allInvoices[i], "billingPeriod") == billingPeriod {
            isAvailable := true;
            break;
          }
          i := i + 1;
        }
      }
    }

    /** validateInvoiceDetails: reads what the decision chain needs, then applies it. */
    method ValidateInvoiceDetails(payload: string, ufaReadFails: bool) returns (msg: string)
      ensures msg == ReconcileMessage(payload, ufaReadFails)
    {
      var invoiceList := codec.decodeObjects(payload);
      var ufaDetails: Option<Fields> := None;
      var raised := false;
      if |invoiceList| >= 2 && !ufaReadFails {
        var ufaNumber := Field(invoiceList[0], "ufanumber");
        ufaDetails := RecordAt(ufaNumber);
        raised := CheckInvoicesRaised(ufaNumber, Field(invoiceList[0], "billingPeriod"));
      }
      msg := ReconcileDecision(invoiceList, ufaReadFails, ufaDetails, raised);
    }

    /** updateMasterRecords: appends a number to the master index, or fails and writes nothing. */
    method UpdateMasterRecords(ufaNumber: string) returns (ok: bool)
      requires Lawful(codec)
      modifies this
      ensures ok <==> old(GetAllRecordsList()).Some?
      ensures ok ==> state == old(state)[AllElementsKey := codec.encodeStrings(old(GetAllRecordsList()).value + [ufaNumber])]
      ensures ok ==> GetAllRecordsList() == Some(old(GetAllRecordsList()).value + [ufaNumber])
      ensures !ok ==> state == old(state)
      ensures old(NoInvoicesIndexed()) ==> NoInvoicesIndexed()
    {
      var recordList := GetAllRecordsList();
      if recordList.None? {
        return false;
      }
      forall m ensures AllElementsKey != InvoiceKey(m) {
        InvoiceKeyDistinct(m, m);
      }
      if NoInvoicesIndexed() {
        NoInvoicesAfterWrite(codec, state, AllElementsKey, codec.encodeStrings(recordList.value + [ufaNumber]));
      }
      state := state[AllElementsKey := codec.encodeStrings(recordList.value + [ufaNumber])];
      return true;
    }

    /** appendUFATransactionHistory: appends a raw payload to the agreement's audit ledger. */
    method AppendUFATransactionHistory(ufaNumber: string, payload: string) returns (ok: bool)
      requires Lawful(codec)
      modifies this
      ensures ok <==> old(PriorHistory(ufaNumber)).Some?
      ensures ok ==> state == old(state)[HistoryKey(ufaNumber) :=
                                            codec.encodeStrings(old(PriorHistory(ufaNumber)).value + [payload])]
      ensures ok ==> StoredList(HistoryKey(ufaNumber)) == Some(old(PriorHistory(ufaNumber)).value + [payload])
      ensures !ok ==> state == old(state)
      ensures old(NoInvoicesIndexed()) ==> NoInvoicesIndexed()
    {
      var recordList := PriorHistory(ufaNumber);
      if recordList.None? {
        return false;
      }
      HistoryKeyNotInvoiceKey(ufaNumber);
      if NoInvoicesIndexed() {
        NoInvoicesAfterWrite(codec, state, HistoryKey(ufaNumber), codec.encodeStrings(recordList.value + [payload]));
      }
      state := state[HistoryKey(ufaNumber) := codec.encodeStrings(recordList.value + [payload])];
      return true;
    }

    /**
     * createUFA: validates the proposed agreement; when valid, stores it under
     * its number, appends the number to the master index and the payload to its
     * audit ledger. A failed master-index append is ignored.
     */
    method CreateUFA(ufaNumber: string, who: string, payload: string) returns (err: Option<string>)
      requires Lawful(codec)
      modifies this
      ensures var msg := ValidateNewUFA(codec, who, payload);
        && (msg != "" ==> err == Some("Validation failure: " + msg) && state == old(state))
        && (msg == "" ==> err.None?)
      ensures err.None? ==> Get(ufaNumber) == Some(payload) && RecordAt(ufaNumber) == codec.decodeObject(payload)
      ensures err.None? && ufaNumber != AllElementsKey ==>
        if old(GetAllRecordsList()).Some? then
          && Get(AllElementsKey) == Some(codec.encodeStrings(old(GetAllRecordsList()).value + [ufaNumber]))
          && GetAllRecordsList() == Some(old(GetAllRecordsList()).value + [ufaNumber])
        else
          Get(AllElementsKey) == old(Get(AllElementsKey))
      ensures err.None? ==>
        if old(PriorHistory(ufaNumber)).Some? then
          && Get(HistoryKey(ufaNumber)) == Some(codec.encodeStrings(old(PriorHistory(ufaNumber)).value + [payload]))
          && StoredList(HistoryKey(ufaNumber)) == Some(old(PriorHistory(ufaNumber)).value + [payload])
        else
          Get(HistoryKey(ufaNumber)) == old(Get(HistoryKey(ufaNumber)))
      ensures forall k :: k != ufaNumber && k != AllElementsKey && k != HistoryKey(ufaNumber) ==> Get(k) == old(Get(k))
      ensures old(state).Keys <= state.Keys
      ensures old(IndexHasRecords()) ==> IndexHasRecords()
      ensures old(NoInvoicesIndexed()) ==> NoInvoicesIndexed()
    {
      var valMsg := ValidateNewUFA(codec, who, payload);
      if valMsg != "" {
        return Some("Validation failure: " + valMsg);
      }
      StoreNewUFA(ufaNumber, payload);
      err := None;
    }

    /** The writes createUFA makes once the agreement is valid. */
    method StoreNewUFA(ufaNumber: string, payload: string)
      requires Lawful(codec)
      requires codec.decodeObject(payload).Some?
      modifies this
      ensures Get(ufaNumber) == Some(payload) && RecordAt(ufaNumber) == codec.decodeObject(payload)
      ensures ufaNumber != AllElementsKey ==>
        if old(GetAllRecordsList()).Some? then
          && Get(AllElementsKey) == Some(codec.encodeStrings(old(GetAllRecordsList()).value + [ufaNumber]))
          && GetAllRecordsList() == Some(old(GetAllRecordsList()).value + [ufaNumber])
        else
          Get(AllElementsKey) == old(Get(AllElementsKey))
      ensures if old(PriorHistory(ufaNumber)).Some? then
          && Get(HistoryKey(ufaNumber)) == Some(codec.encodeStrings(old(PriorHistory(ufaNumber)).value + [payload]))
          && StoredList(HistoryKey(ufaNumber)) == Some(old(PriorHistory(ufaNumber)).value + [payload])
        else
          Get(HistoryKey(ufaNumber)) == old(Get(HistoryKey(ufaNumber)))
      ensures forall k :: k != ufaNumber && k != AllElementsKey && k != HistoryKey(ufaNumber) ==> Get(k) == old(Get(k))
      ensures old(state).Keys <= state.Keys
      ensures old(IndexHasRecords()) ==> IndexHasRecords()
      ensures old(NoInvoicesIndexed()) ==> NoInvoicesIndexed()
    {
      if NoInvoicesIndexed() {
        NoInvoicesAfterWrite(codec, state, ufaNumber, payload);
      }
      state := state[ufaNumber := payload];
      var _ := UpdateMasterRecords(ufaNumber);
      var _ := AppendUFATransactionHistory(ufaNumber, payload);
    }

    /**
     * updateUFA: merges the changed fields of `payload` into the stored record,
     * stores the merge and appends the payload itself (not the merge) to the
     * audit ledger. Nothing is re-validated; the role argument is ignored.
     */
    method UpdateUFA(ufaNumber: string, payload: string) returns (panicked: bool)
      requires Lawful(codec)
      modifies this
      ensures var updates := codec.decodeObject(payload);
        panicked <==> old(RecordAt(ufaNumber)).None? && updates.Some? && updates.value != map[]
      ensures panicked ==> state == old(state)
      ensures !panicked ==>
        var merged := MergeFields(old(RecordAt(ufaNumber)), codec.decodeObject(payload).GetOr(map[]));
        && Get(ufaNumber) == Some(codec.encodeObject(merged))
        && RecordAt(ufaNumber) == merged
      ensures !panicked ==>
        if old(PriorHistory(ufaNumber)).Some? then
          && Get(HistoryKey(ufaNumber)) == Some(codec.encodeStrings(old(PriorHistory(ufaNumber)).value + [payload]))
          && StoredList(HistoryKey(ufaNumber)) == Some(old(PriorHistory(ufaNumber)).value + [payload])
        else
          Get(HistoryKey(ufaNumber)) == old(Get(HistoryKey(ufaNumber)))
      ensures forall k :: k != ufaNumber && k != HistoryKey(ufaNumber) ==> Get(k) == old(Get(k))
      ensures old(state).Keys <= state.Keys
      ensures old(IndexHasRecords()) ==> IndexHasRecords()
      ensures old(NoInvoicesIndexed()) ==> NoInvoicesIndexed()
    {
      var existingRecMap := RecordAt(ufaNumber);
      var updatedFields := codec.decodeObject(payload);
      var updatedRecord := UpdateRecord(existingRecMap, updatedFields);
      if updatedRecord.Panic? {
        return true;
      }
      if existingRecMap.Some? {
        var merged := existingRecMap.value + updatedFields.GetOr(map[]);
        assert updatedRecord.record.value.Keys == merged.Keys;
        assert updatedRecord.record.value == merged;
      }
      if NoInvoicesIndexed() {
        var bytes := codec.encodeObject(updatedRecord.record);
        assert updatedRecord.record.Some? ==> codec.decodeObject(bytes).Some?;
        NoInvoicesAfterWrite(codec, state, ufaNumber, bytes);
      }
      state := state[ufaNumber := codec.encodeObject(updatedRecord.record)];
      var _ := AppendUFATransactionHistory(ufaNumber, payload);
      panicked := false;
    }

    /** getAllUFA: the record of every number in the master index, in index order. */
    method GetAllUFA() returns (records: Option<seq<Option<Fields>>>)
      ensures records.None? <==> GetAllRecordsList().None?
      ensures records.Some? ==>
        var names := GetAllRecordsList().value;
        && |records.value| == |names|
        && forall i :: 0 <= i < |names| ==> records.value[i] == RecordAt(names[i])
    {
      var recordsList := GetAllRecordsList();
      if recordsList.None? {
        return None;
      }
      var names := recordsList.value;
      var outputRecords: seq<Option<Fields>> := [];
      for i := 0 to |names|
        invariant |outputRecords| == i
        invariant forall j :: 0 <= j < i ==> outputRecords[j] == RecordAt(names[j])
      {
        outputRecords := outputRecords + [RecordAt(names[i])];
      }
      return Some(outputRecords);
    }

    /** getUFADetails: the record stored under the number; nil (JSON null) when unset or not an object. */
    method GetUFADetails(ufaNumber: string) returns (outputRecord: Option<Fields>)
      ensures ufaNumber !in state ==> outputRecord.None?
      ensures ufaNumber in state ==> outputRecord == codec.decodeObject(state[ufaNumber])
    {
      outputRecord := RecordAt(ufaNumber);
    }

    /** Init: (re)sets the master index to the empty list. */
    method Init()
      requires Lawful(codec)
      modifies this
      ensures state == old(state)[AllElementsKey := "[]"]
      ensures GetAllRecordsList() == Some([])
      ensures IndexHasRecords()
      ensures old(NoInvoicesIndexed()) ==> NoInvoicesIndexed()
    {
      state := state[AllElementsKey := "[]"];
      forall m ensures AllElementsKey != InvoiceKey(m) {
        InvoiceKeyDistinct(m, m);
      }
      if old(NoInvoicesIndexed()) {
        NoInvoicesAfterWrite(codec, old(state), AllElementsKey, "[]");
      }
    }
  }
}
