/** The `users` collection of the document store, as far as the session layer
    writes and queries it. The store itself is external; this module says what
    a write does to the collection and what a query may answer. */
module ProfileStore {
  import opened JsValues

  /** The data of one `users` document. Signup always writes a `name`; a reader
      treats it as optional. */
  datatype Profile = Profile(id: string, email: string, name: Option<string>)

  /** The collection: document id to document data. */
  type Users = map<string, Profile>

  /** `setDoc(doc(db, "users", id), p)`: the document `id` now holds `p`, every
      other document is unchanged. */
  function SetDoc(users: Users, id: string, p: Profile): (u: Users)
    ensures id in u && u[id] == p
    ensures u.Keys == users.Keys + {id}
    ensures forall other :: other in users && other != id ==> u[other] == users[other]
  {
    users[id := p]
  }

  /** True of a document whose `email` field equals `key`. */
  predicate Matches(users: Users, id: string, key: string)
  {
    id in users && users[id].email == key
  }

  /** What `getDocs(query(users, where("email", "==", key), limit(1)))` may
      resolve to: at most one document, only a matching one, and none only
      when no document matches. */
  predicate IsQueryAnswer(users: Users, key: string, snapshot: seq<Profile>)
  {
    && |snapshot| <= 1
    && (forall i :: 0 <= i < |snapshot| ==> snapshot[i] in users.Values && snapshot[i].email == key)
    && (snapshot == [] ==> forall id :: id in users ==> users[id].email != key)
  }

  /** Once a document with email `key` is stored, every answer to the query for
      `key` holds exactly one matching document. */
  lemma StoredRecordIsAnswered(users: Users, id: string, key: string, snapshot: seq<Profile>)
    requires Matches(users, id, key)
    requires IsQueryAnswer(users, key, snapshot)
    ensures |snapshot| == 1 && snapshot[0].email == key
  {
  }

  /** A non-empty answer came from a document whose email is `key`. */
  lemma AnswerComesFromMatch(users: Users, key: string, snapshot: seq<Profile>)
    requires IsQueryAnswer(users, key, snapshot)
    requires snapshot != []
    ensures exists id :: Matches(users, id, key) && users[id] == snapshot[0]
  {
    assert snapshot[0] in users.Values;
    var id :| id in users && users[id] == snapshot[0];
    assert Matches(users, id, key);
  }

  /** When no document has email `key`, the query answers nothing. */
  lemma NoMatchNoAnswer(users: Users, key: string, snapshot: seq<Profile>)
    requires forall id :: id in users ==> users[id].email != key
    requires IsQueryAnswer(users, key, snapshot)
    ensures snapshot == []
  {
    if snapshot != [] {
      AnswerComesFromMatch(users, key, snapshot);
      assert false;
    }
  }
}
