/** The reminders collection as the application sees it: the record a write
    sends, the documents a snapshot push delivers, the reminders the component
    keeps, and the remote store abstracted as a map from document id to record
    that a listener sees filtered by owner. */
module ReminderSync {
  import opened Types

  /** `serverTimestamp()`: a sentinel the store resolves; its value is opaque here. */
  datatype CreatedAt = ServerTimestamp

  /** The data of one reminder document, as `addDoc` writes it. */
  datatype ReminderRecord = ReminderRecord(
    userId: Option<Uid>,
    labelText: string,
    time: string,
    receivePhoneNotification: bool,
    createdAt: CreatedAt)

  /** One document of a snapshot push: its id and `doc.data()`. */
  datatype Doc = Doc(id: DocId, data: ReminderRecord)

  /** An element of the component's `reminders`: `{ id: doc.id, ...doc.data() }`. */
  datatype Reminder = Reminder(
    id: DocId,
    userId: Option<Uid>,
    labelText: string,
    time: string,
    receivePhoneNotification: bool,
    createdAt: CreatedAt)

  /** The document data a reminder carries, without its id. */
  function RecordOf(r: Reminder): ReminderRecord {
    ReminderRecord(r.userId, r.labelText, r.time, r.receivePhoneNotification, r.createdAt)
  }

  function Tag(d: Doc): Reminder {
    Reminder(d.id, d.data.userId, d.data.labelText, d.data.time, d.data.receivePhoneNotification, d.data.createdAt)
  }

  /** `snapshot.docs.map(doc => ({ id: doc.id, ...doc.data() }))`: one reminder
      per document, in push order, each tagged with its document's id and
      carrying exactly that document's data. */
  function ToReminders(docs: seq<Doc>): (rs: seq<Reminder>)
    ensures |rs| == |docs|
    ensures forall i :: 0 <= i < |docs| ==> rs[i].id == docs[i].id && RecordOf(rs[i]) == docs[i].data
  {
    if docs == [] then [] else [Tag(docs[0])] + ToReminders(docs[1..])
  }

  /** How many reminders in `rs` carry the id `id`. */
  function CountId(rs: seq<Reminder>, id: DocId): nat {
    if rs == [] then 0 else (if rs[0].id == id then 1 else 0) + CountId(rs[1..], id)
  }

  // ---------------------------------------------------------------------------
  // The remote collection

  /** The remote collection: document id to document data. */
  type Store = map<DocId, ReminderRecord>

  /** `query(collection, where("userId", "==", uid))`: the documents a listener
      for `uid` sees. */
  function Query(store: Store, uid: Uid): (v: map<DocId, ReminderRecord>)
    ensures forall id <- v :: id in store && v[id] == store[id] && v[id].userId == Some(uid)
    ensures forall id <- store :: store[id].userId == Some(uid) ==> id in v
  {
    map id | id in store && store[id].userId == Some(uid) :: store[id]
  }

  /** A successful `addDoc`: the store assigns a fresh id. */
  function Insert(store: Store, id: DocId, rec: ReminderRecord): (after: Store)
    requires id !in store
    ensures after.Keys == store.Keys + {id} && after[id] == rec
    ensures forall k <- store :: after[k] == store[k]
  {
    store[id := rec]
  }

  /** A successful `deleteDoc`: removing an id that is absent changes nothing. */
  function Remove(store: Store, id: DocId): (after: Store)
    ensures after.Keys == store.Keys - {id}
    ensures forall k <- after :: after[k] == store[k]
  {
    store - {id}
  }

  predicate DistinctIds(docs: seq<Doc>) {
    forall i, j :: 0 <= i < j < |docs| ==> docs[i].id != docs[j].id
  }

  /** The documents of a push, keyed by id. */
  function DocsMap(docs: seq<Doc>): map<DocId, ReminderRecord> {
    if docs == [] then map[] else DocsMap(docs[1..])[docs[0].id := docs[0].data]
  }

  /** `docs` is a push for a listener on `uid` while the store is `store`: each
      visible document exactly once, in any order. */
  predicate IsSnapshot(docs: seq<Doc>, store: Store, uid: Uid) {
    DistinctIds(docs) && DocsMap(docs) == Query(store, uid)
  }

  // ---------------------------------------------------------------------------
  // Properties

  /** A push's key set is the set of its documents' ids, and with distinct ids
      each id maps to its own document's data. */
  lemma {:induction false} DocsMapAt(docs: seq<Doc>)
    requires DistinctIds(docs)
    ensures forall i :: 0 <= i < |docs| ==> docs[i].id in DocsMap(docs) && DocsMap(docs)[docs[i].id] == docs[i].data
    ensures forall id <- DocsMap(docs) :: exists i :: 0 <= i < |docs| && docs[i].id == id
  {
    if docs != [] {
      var rest := docs[1..];
      assert DistinctIds(rest) by {
        forall i, j | 0 <= i < j < |rest| ensures rest[i].id != rest[j].id {
          assert rest[i] == docs[i + 1] && rest[j] == docs[j + 1];
        }
      }
      DocsMapAt(rest);
      forall id <- DocsMap(docs) ensures exists i :: 0 <= i < |docs| && docs[i].id == id {
        if id != docs[0].id {
          var k :| 0 <= k < |rest| && rest[k].id == id;
          assert docs[k + 1].id == id;
        }
      }
    }
  }

  /** With distinct ids, an id occurs in the reminders of a push exactly once if
      the push holds that document, and not at all otherwise. */
  lemma {:induction false} CountIdOfPush(docs: seq<Doc>, id: DocId)
    requires DistinctIds(docs)
    ensures CountId(ToReminders(docs), id) == if id in DocsMap(docs) then 1 else 0
  {
    if docs != [] {
      var rest := docs[1..];
      assert DistinctIds(rest) by {
        forall i, j | 0 <= i < j < |rest| ensures rest[i].id != rest[j].id {
          assert rest[i] == docs[i + 1] && rest[j] == docs[j + 1];
        }
      }
      CountIdOfPush(rest, id);
      assert ToReminders(docs)[1..] == ToReminders(rest);
      if id == docs[0].id {
        DocsMapAt(rest);
        forall k | 0 <= k < |rest| ensures rest[k].id != id {
          assert rest[k] == docs[k + 1];
        }
      }
    }
  }

  /** Every reminder a listener on `uid` receives is owned by `uid`. */
  lemma OwnerScoped(docs: seq<Doc>, store: Store, uid: Uid)
    requires IsSnapshot(docs, store, uid)
    ensures forall r <- ToReminders(docs) :: r.userId == Some(uid)
  {
    DocsMapAt(docs);
    var rs := ToReminders(docs);
    forall r <- rs ensures r.userId == Some(uid) {
      var i :| 0 <= i < |rs| && rs[i] == r;
      assert RecordOf(r) == docs[i].data == Query(store, uid)[docs[i].id];
    }
  }

  /** Writing a record owned by `uid` adds exactly that document to what a
      listener on `uid` sees; a record owned by anyone else (or by no one)
      leaves that view unchanged. */
  lemma InsertView(store: Store, id: DocId, rec: ReminderRecord, uid: Uid)
    requires id !in store
    ensures Query(Insert(store, id, rec), uid)
         == if rec.userId == Some(uid) then Query(store, uid)[id := rec] else Query(store, uid)
  {
  }

  /** Deleting `id` removes exactly that document from every owner's view. */
  lemma RemoveView(store: Store, id: DocId, uid: Uid)
    ensures Query(Remove(store, id), uid) == Query(store, uid) - {id}
  {
  }

  /** Create followed by a push: the reminders hold exactly one entry with the
      new id, it carries the fields that were written, and every other entry
      is what the listener saw before. */
  lemma CreateThenPush(store: Store, id: DocId, rec: ReminderRecord, uid: Uid, docs: seq<Doc>)
    requires id !in store && rec.userId == Some(uid)
    requires IsSnapshot(docs, Insert(store, id, rec), uid)
    ensures CountId(ToReminders(docs), id) == 1
    ensures forall r <- ToReminders(docs) :: r.id == id ==> RecordOf(r) == rec
    ensures DocsMap(docs) == Query(store, uid)[id := rec]
  {
    InsertView(store, id, rec, uid);
    CountIdOfPush(docs, id);
    DocsMapAt(docs);
    var rs := ToReminders(docs);
    forall r <- rs | r.id == id ensures RecordOf(r) == rec {
      var i :| 0 <= i < |rs| && rs[i] == r;
      assert docs[i].id == id;
    }
  }

  /** Delete followed by a push: the deleted id is gone and every other
      document the listener saw is still there, unchanged. */
  lemma DeleteThenPush(store: Store, id: DocId, uid: Uid, docs: seq<Doc>)
    requires IsSnapshot(docs, Remove(store, id), uid)
    ensures CountId(ToReminders(docs), id) == 0
    ensures DocsMap(docs) == Query(store, uid) - {id}
  {
    RemoveView(store, id, uid);
    CountIdOfPush(docs, id);
  }
}
