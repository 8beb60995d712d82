/**
 * The document-store operations of the front end over three collections:
 * favorites, notes and quiz sessions. A collection is a sequence of
 * documents in the store's order; a query is a filter and "the first
 * match" is the first in that order. New document ids and the store's
 * clock are parameters.
 */
module DocStore {
  import opened Wrappers
  import opened Text
  import opened Seqs

  datatype FavoriteDoc = FavoriteDoc(id: string, userId: int, shortcutId: string, createdAt: nat)
  datatype NoteDoc = NoteDoc(id: string, userId: int, shortcutId: string, note: string, createdAt: nat, updatedAt: nat)
  datatype SessionDoc = SessionDoc(
    id: string,
    userId: int,
    platform: string,
    score: int,
    totalQuestions: int,
    completedAt: string,
    createdAt: nat)

  /** The most sessions `getQuizHistory` returns. */
  const HISTORY_LIMIT: nat := 10
  const NOTE_NOT_FOUND := "Note not found"

  function FavoriteKey(d: FavoriteDoc): (int, string)
  {
    (d.userId, d.shortcutId)
  }

  function FavoriteId(d: FavoriteDoc): string
  {
    d.id
  }

  function NoteKey(d: NoteDoc): (int, string)
  {
    (d.userId, d.shortcutId)
  }

  function NoteId(d: NoteDoc): string
  {
    d.id
  }

  function SessionId(d: SessionDoc): string
  {
    d.id
  }

  predicate HasKey<T>(docs: seq<T>, key: T -> (int, string), userId: int, shortcutId: string)
  {
    exists i :: 0 <= i < |docs| && key(docs[i]) == (userId, shortcutId)
  }

  /** The first document of `docs` whose key is the pair, as `getDocs` of the two-`where` query gives it. */
  function FirstWithKey<T>(docs: seq<T>, key: T -> (int, string), userId: int, shortcutId: string): (r: Option<nat>)
    ensures r.None? <==> !HasKey(docs, key, userId, shortcutId)
    ensures r.Some? ==> r.value < |docs| && key(docs[r.value]) == (userId, shortcutId)
    ensures r.Some? ==> forall j :: 0 <= j < r.value ==> key(docs[j]) != (userId, shortcutId)
  {
    FindFirst(docs, KeyIs(key, (userId, shortcutId)))
  }

  // ---------------------------------------------------------------- favorites

  /** `getFavorites`: the shortcut ids of the user's favorite documents, in order. */
  function UserFavorites(favs: seq<FavoriteDoc>, userId: int): (r: seq<string>)
    ensures |r| <= |favs|
    ensures forall s :: s in r <==> HasKey(favs, FavoriteKey, userId, s)
  {
    var mine := Filter(favs, (d: FavoriteDoc) => d.userId == userId);
    FilterMembers(favs, (d: FavoriteDoc) => d.userId == userId);
    var r := seq(|mine|, i requires 0 <= i < |mine| => mine[i].shortcutId);
    assert forall s :: s in r ==> HasKey(favs, FavoriteKey, userId, s) by {
      forall s | s in r ensures HasKey(favs, FavoriteKey, userId, s) {
        var i :| 0 <= i < |r| && r[i] == s;
        assert mine[i] in favs;
        var j :| 0 <= j < |favs| && favs[j] == mine[i];
        assert FavoriteKey(favs[j]) == (userId, s);
      }
    }
    assert forall s :: HasKey(favs, FavoriteKey, userId, s) ==> s in r by {
      forall s | HasKey(favs, FavoriteKey, userId, s) ensures s in r {
        var j :| 0 <= j < |favs| && FavoriteKey(favs[j]) == (userId, s);
        assert favs[j] in mine;
        var i :| 0 <= i < |mine| && mine[i] == favs[j];
        assert r[i] == s;
      }
    }
    r
  }

  /** `addFavorite`: an existing pair stays as it is; otherwise one document is appended. */
  function AddedFavorites(favs: seq<FavoriteDoc>, userId: int, shortcutId: string, newId: string, now: nat): (r: seq<FavoriteDoc>)
  {
    match FirstWithKey(favs, FavoriteKey, userId, shortcutId)
    case Some(_) => favs
    case None => favs + [FavoriteDoc(newId, userId, shortcutId, now)]
  }

  /** `removeFavorite`: the first document with the pair is deleted, if there is one. */
  function RemovedFavorites(favs: seq<FavoriteDoc>, userId: int, shortcutId: string): (r: seq<FavoriteDoc>)
  {
    match FirstWithKey(favs, FavoriteKey, userId, shortcutId)
    case None => favs
    case Some(i) => RemoveAt(favs, i)
  }

  /** After an add the pair is present, nothing earlier changed, and at most one document was added. */
  lemma AddFavoriteStores(favs: seq<FavoriteDoc>, userId: int, shortcutId: string, newId: string, now: nat)
    ensures var r := AddedFavorites(favs, userId, shortcutId, newId, now);
      && HasKey(r, FavoriteKey, userId, shortcutId)
      && (HasKey(favs, FavoriteKey, userId, shortcutId) ==> r == favs)
      && (!HasKey(favs, FavoriteKey, userId, shortcutId) ==> r == favs + [FavoriteDoc(newId, userId, shortcutId, now)])
  {
    var r := AddedFavorites(favs, userId, shortcutId, newId, now);
    if !HasKey(favs, FavoriteKey, userId, shortcutId) {
      assert FavoriteKey(r[|favs|]) == (userId, shortcutId);
    }
  }

  /** Adding the same pair again changes nothing, whatever id and time the second add brings. */
  lemma AddFavoriteIdempotent(favs: seq<FavoriteDoc>, userId: int, shortcutId: string, id1: string, t1: nat, id2: string, t2: nat)
    ensures var once := AddedFavorites(favs, userId, shortcutId, id1, t1);
      AddedFavorites(once, userId, shortcutId, id2, t2) == once
  {
    AddFavoriteStores(favs, userId, shortcutId, id1, t1);
  }

  /** An add keeps pairs and ids distinct when the new id is fresh. */
  lemma AddFavoriteKeepsUnique(favs: seq<FavoriteDoc>, userId: int, shortcutId: string, newId: string, now: nat)
    requires UniqueKeys(favs, FavoriteKey) && UniqueKeys(favs, FavoriteId)
    requires forall i :: 0 <= i < |favs| ==> favs[i].id != newId
    ensures var r := AddedFavorites(favs, userId, shortcutId, newId, now);
      UniqueKeys(r, FavoriteKey) && UniqueKeys(r, FavoriteId)
  {
  }

  /**
   * With distinct pairs, a remove leaves the pair absent and every document
   * with another pair in place; removing an absent pair changes nothing.
   */
  lemma RemoveFavoriteRemoves(favs: seq<FavoriteDoc>, userId: int, shortcutId: string)
    requires UniqueKeys(favs, FavoriteKey)
    ensures var r := RemovedFavorites(favs, userId, shortcutId);
      && !HasKey(r, FavoriteKey, userId, shortcutId)
      && UniqueKeys(r, FavoriteKey)
      && (forall d :: FavoriteKey(d) != (userId, shortcutId) ==> (d in r <==> d in favs))
      && (!HasKey(favs, FavoriteKey, userId, shortcutId) ==> r == favs)
  {
    match FirstWithKey(favs, FavoriteKey, userId, shortcutId)
    case None =>
    case Some(i) =>
      RemoveAtUnique(favs, i, FavoriteKey);
      RemoveAtKeeps(favs, i, FavoriteKey);
  }

  /** Removing twice is removing once. */
  lemma RemoveFavoriteIdempotent(favs: seq<FavoriteDoc>, userId: int, shortcutId: string)
    requires UniqueKeys(favs, FavoriteKey)
    ensures var once := RemovedFavorites(favs, userId, shortcutId);
      RemovedFavorites(once, userId, shortcutId) == once
  {
    RemoveFavoriteRemoves(favs, userId, shortcutId);
  }

  /** A remove after the add of a new pair gives back the collection. */
  lemma RemoveUndoesAdd(favs: seq<FavoriteDoc>, userId: int, shortcutId: string, newId: string, now: nat)
    requires !HasKey(favs, FavoriteKey, userId, shortcutId)
    ensures RemovedFavorites(AddedFavorites(favs, userId, shortcutId, newId, now), userId, shortcutId) == favs
  {
    AddFavoriteStores(favs, userId, shortcutId, newId, now);
    var r := favs + [FavoriteDoc(newId, userId, shortcutId, now)];
    assert FirstWithKey(r, FavoriteKey, userId, shortcutId) == Some(|favs|);
    assert r[..|favs|] == favs;
  }

  // ---------------------------------------------------------------- notes

  /** `getUserNote`: the first note of the pair, or null. */
  function UserNote(notes: seq<NoteDoc>, userId: int, shortcutId: string): (r: Option<NoteDoc>)
    ensures r.None? <==> !HasKey(notes, NoteKey, userId, shortcutId)
    ensures r.Some? ==> r.value in notes && NoteKey(r.value) == (userId, shortcutId)
  {
    match FirstWithKey(notes, NoteKey, userId, shortcutId)
    case None => None
    case Some(i) => Some(notes[i])
  }

  /** `createUserNote`: replaces the text of the pair's first note, or appends a new note. */
  function UpsertedNotes(notes: seq<NoteDoc>, userId: int, shortcutId: string, note: string, newId: string, now: nat): (r: seq<NoteDoc>)
  {
    match FirstWithKey(notes, NoteKey, userId, shortcutId)
    case Some(i) => notes[i := notes[i].(note := note)]
    case None => notes + [NoteDoc(newId, userId, shortcutId, note, now, now)]
  }

  /** `updateUserNote`: "Note not found" when the pair has no note, else its first note gets the text and the time. */
  function UpdatedNotes(notes: seq<NoteDoc>, userId: int, shortcutId: string, note: string, now: nat): (r: Result<seq<NoteDoc>, string>)
  {
    match FirstWithKey(notes, NoteKey, userId, shortcutId)
    case None => Err(NOTE_NOT_FOUND)
    case Some(i) => Ok(notes[i := notes[i].(note := note, updatedAt := now)])
  }

  /** `deleteUserNote`: the pair's first note is deleted, if there is one. */
  function DeletedNotes(notes: seq<NoteDoc>, userId: int, shortcutId: string): (r: seq<NoteDoc>)
  {
    match FirstWithKey(notes, NoteKey, userId, shortcutId)
    case None => notes
    case Some(i) => RemoveAt(notes, i)
  }

  /**
   * After an upsert the pair's note has the new text. An existing note
   * keeps its id, creation and update times, and the collection keeps its
   * length; otherwise exactly one note is appended.
   */
  lemma UpsertThenRead(notes: seq<NoteDoc>, userId: int, shortcutId: string, note: string, newId: string, now: nat)
    ensures var r := UpsertedNotes(notes, userId, shortcutId, note, newId, now);
      && UserNote(r, userId, shortcutId).Some?
      && UserNote(r, userId, shortcutId).value.note == note
      && (UserNote(notes, userId, shortcutId).Some? ==>
            && |r| == |notes|
            && UserNote(r, userId, shortcutId).value == UserNote(notes, userId, shortcutId).value.(note := note))
      && (UserNote(notes, userId, shortcutId).None? ==>
            r == notes + [NoteDoc(newId, userId, shortcutId, note, now, now)])
  {
    var r := UpsertedNotes(notes, userId, shortcutId, note, newId, now);
    match FirstWithKey(notes, NoteKey, userId, shortcutId)
    case Some(i) =>
      assert NoteKey(r[i]) == (userId, shortcutId);
      assert FirstWithKey(r, NoteKey, userId, shortcutId) == Some(i) by {
        forall j | 0 <= j < i ensures NoteKey(r[j]) != (userId, shortcutId) {
          assert r[j] == notes[j];
        }
      }
    case None =>
      assert NoteKey(r[|notes|]) == (userId, shortcutId);
      assert FirstWithKey(r, NoteKey, userId, shortcutId) == Some(|notes|);
  }

  /** An update fails exactly when the pair has no note and then changes nothing; otherwise the note reads back updated. */
  lemma UpdateThenRead(notes: seq<NoteDoc>, userId: int, shortcutId: string, note: string, now: nat)
    ensures var r := UpdatedNotes(notes, userId, shortcutId, note, now);
      && (r.Err? <==> UserNote(notes, userId, shortcutId).None?)
      && (r.Err? ==> r.error == NOTE_NOT_FOUND)
      && (r.Ok? ==>
            && |r.value| == |notes|
            && UserNote(r.value, userId, shortcutId)
               == Some(UserNote(notes, userId, shortcutId).value.(note := note, updatedAt := now)))
  {
    var r := UpdatedNotes(notes, userId, shortcutId, note, now);
    match FirstWithKey(notes, NoteKey, userId, shortcutId)
    case None =>
    case Some(i) =>
      var u := r.value;
      assert NoteKey(u[i]) == (userId, shortcutId);
      assert FirstWithKey(u, NoteKey, userId, shortcutId) == Some(i) by {
        forall j | 0 <= j < i ensures NoteKey(u[j]) != (userId, shortcutId) {
          assert u[j] == notes[j];
        }
      }
  }

  /** With distinct pairs, a delete leaves no note for the pair, and deleting twice is deleting once. */
  lemma DeleteNoteIdempotent(notes: seq<NoteDoc>, userId: int, shortcutId: string)
    requires UniqueKeys(notes, NoteKey)
    ensures var once := DeletedNotes(notes, userId, shortcutId);
      && UserNote(once, userId, shortcutId).None?
      && UniqueKeys(once, NoteKey)
      && (forall d :: NoteKey(d) != (userId, shortcutId) ==> (d in once <==> d in notes))
      && DeletedNotes(once, userId, shortcutId) == once
      && (UserNote(notes, userId, shortcutId).None? ==> once == notes)
  {
    match FirstWithKey(notes, NoteKey, userId, shortcutId)
    case None =>
    case Some(i) =>
      RemoveAtUnique(notes, i, NoteKey);
      RemoveAtKeeps(notes, i, NoteKey);
  }

  /** An upsert keeps pairs distinct, and ids distinct when the new id is fresh. */
  lemma UpsertKeepsUnique(notes: seq<NoteDoc>, userId: int, shortcutId: string, note: string, newId: string, now: nat)
    requires UniqueKeys(notes, NoteKey) && UniqueKeys(notes, NoteId)
    requires forall i :: 0 <= i < |notes| ==> notes[i].id != newId
    ensures var r := UpsertedNotes(notes, userId, shortcutId, note, newId, now);
      UniqueKeys(r, NoteKey) && UniqueKeys(r, NoteId)
  {
    match FirstWithKey(notes, NoteKey, userId, shortcutId)
    case None =>
    case Some(i) =>
      ReplaceKeepsUnique(notes, i, notes[i].(note := note), NoteKey);
      ReplaceKeepsUnique(notes, i, notes[i].(note := note), NoteId);
  }

  /** An update keeps pairs and ids distinct. */
  lemma UpdateKeepsUnique(notes: seq<NoteDoc>, userId: int, shortcutId: string, note: string, now: nat)
    requires UniqueKeys(notes, NoteKey) && UniqueKeys(notes, NoteId)
    ensures var r := UpdatedNotes(notes, userId, shortcutId, note, now);
      r.Ok? ==> UniqueKeys(r.value, NoteKey) && UniqueKeys(r.value, NoteId)
  {
    match FirstWithKey(notes, NoteKey, userId, shortcutId)
    case None =>
    case Some(i) =>
      ReplaceKeepsUnique(notes, i, notes[i].(note := note, updatedAt := now), NoteKey);
      ReplaceKeepsUnique(notes, i, notes[i].(note := note, updatedAt := now), NoteId);
  }

  // ---------------------------------------------------------------- quiz sessions

  /** Newest first: each session completed no later than the one before it. */
  predicate NewestFirst(s: seq<SessionDoc>)
  {
    forall i :: 0 < i < |s| ==> LexLe(s[i].completedAt, s[i - 1].completedAt)
  }

  /** Places `x` before the first session completed no later than it. */
  function InsertNewestFirst(x: SessionDoc, s: seq<SessionDoc>): (r: seq<SessionDoc>)
    ensures |r| == |s| + 1
    ensures r != [] && (r[0] == x || (s != [] && r[0] == s[0]))
    ensures NewestFirst(s) ==> NewestFirst(r)
  {
    if s == [] then [x]
    else if LexLe(s[0].completedAt, x.completedAt) then [x] + s
    else
      LexLeTotal(s[0].completedAt, x.completedAt);
      [s[0]] + InsertNewestFirst(x, s[1..])
  }

  lemma {:induction false} InsertPermutes(x: SessionDoc, s: seq<SessionDoc>)
    ensures multiset(InsertNewestFirst(x, s)) == multiset(s) + multiset{x}
  {
    if s != [] && !LexLe(s[0].completedAt, x.completedAt) {
      InsertPermutes(x, s[1..]);
      assert s == [s[0]] + s[1..];
    }
  }

  /** `orderBy('completedAt', 'desc')`; sessions with equal times keep their collection order. */
  function SortNewestFirst(s: seq<SessionDoc>): (r: seq<SessionDoc>)
    ensures |r| == |s| && NewestFirst(r)
  {
    if s == [] then [] else InsertNewestFirst(s[0], SortNewestFirst(s[1..]))
  }

  lemma {:induction false} SortPermutes(s: seq<SessionDoc>)
    ensures multiset(SortNewestFirst(s)) == multiset(s)
  {
    if s != [] {
      SortPermutes(s[1..]);
      InsertPermutes(s[0], SortNewestFirst(s[1..]));
      assert s == [s[0]] + s[1..];
    }
  }

  function OfUser(userId: int): SessionDoc -> bool
  {
    (d: SessionDoc) => d.userId == userId
  }

  function SessionsOf(sessions: seq<SessionDoc>, userId: int): seq<SessionDoc>
  {
    Filter(sessions, OfUser(userId))
  }

  /** `getQuizHistory`: the user's sessions, newest first, at most ten. */
  function QuizHistory(sessions: seq<SessionDoc>, userId: int): seq<SessionDoc>
  {
    var sorted := SortNewestFirst(SessionsOf(sessions, userId));
    if |sorted| <= HISTORY_LIMIT then sorted else sorted[..HISTORY_LIMIT]
  }

  /** In a newest-first list, a later session completed no later than an earlier one. */
  lemma {:induction false} NewestFirstChain(s: seq<SessionDoc>, i: nat, j: nat)
    requires NewestFirst(s) && i <= j < |s|
    ensures LexLe(s[j].completedAt, s[i].completedAt)
    decreases j - i
  {
    if i == j {
      LexLeRefl(s[i].completedAt);
    } else {
      NewestFirstChain(s, i, j - 1);
      LexLeTrans(s[j].completedAt, s[j - 1].completedAt, s[i].completedAt);
    }
  }

  /** The history is the first part of the user's sessions sorted newest first. */
  lemma HistoryIsPrefix(sessions: seq<SessionDoc>, userId: int)
    ensures var sorted := SortNewestFirst(SessionsOf(sessions, userId));
      var r := QuizHistory(sessions, userId);
      && |r| == (if |sorted| <= HISTORY_LIMIT then |sorted| else HISTORY_LIMIT)
      && sorted == r + sorted[|r|..]
  {
  }

  /**
   * The history holds only the user's sessions, newest first; it holds
   * all of them when there are at most ten, else ten.
   */
  lemma QuizHistorySpec(sessions: seq<SessionDoc>, userId: int)
    ensures var r := QuizHistory(sessions, userId);
      var mine := SessionsOf(sessions, userId);
      && NewestFirst(r)
      && |r| == (if |mine| <= HISTORY_LIMIT then |mine| else HISTORY_LIMIT)
      && (forall d :: d in r ==> d in sessions && d.userId == userId)
      && multiset(r) <= multiset(mine)
  {
    var mine := SessionsOf(sessions, userId);
    var sorted := SortNewestFirst(mine);
    var r := QuizHistory(sessions, userId);
    HistoryIsPrefix(sessions, userId);
    SortPermutes(mine);
    FilterMembers(sessions, OfUser(userId));
    assert multiset(sorted) == multiset(r) + multiset(sorted[|r|..]);
    forall d | d in r ensures d in sessions && d.userId == userId {
      assert d in multiset(sorted);
    }
    forall i | 0 < i < |r| ensures LexLe(r[i].completedAt, r[i - 1].completedAt) {
      assert r[i] == sorted[i] && r[i - 1] == sorted[i - 1];
    }
  }

  /** Every session of the user that the limit leaves out completed no later than the last one shown. */
  lemma QuizHistoryKeepsNewest(sessions: seq<SessionDoc>, userId: int)
    ensures var r := QuizHistory(sessions, userId);
      var mine := SessionsOf(sessions, userId);
      forall d :: d in multiset(mine) - multiset(r) ==> LexLe(d.completedAt, r[|r| - 1].completedAt)
  {
    var mine := SessionsOf(sessions, userId);
    var sorted := SortNewestFirst(mine);
    var r := QuizHistory(sessions, userId);
    HistoryIsPrefix(sessions, userId);
    SortPermutes(mine);
    var rest := sorted[|r|..];
    assert multiset(mine) == multiset(r) + multiset(rest);
    forall d: SessionDoc | d in multiset(mine) - multiset(r) ensures LexLe(d.completedAt, r[|r| - 1].completedAt) {
      assert d in multiset(rest);
      var k :| 0 <= k < |rest| && rest[k] == d;
      assert sorted[|r| + k] == d;
      NewestFirstChain(sorted, |r| - 1, |r| + k);
    }
  }

  // ---------------------------------------------------------------- the store

  class Firestore {
    var favorites: seq<FavoriteDoc>
    var notes: seq<NoteDoc>
    var quizSessions: seq<SessionDoc>

    /** The writes below never make two documents for one pair, nor reuse an id. */
    ghost predicate Valid()
      reads this
    {
      && UniqueKeys(favorites, FavoriteKey) && UniqueKeys(favorites, FavoriteId)
      && UniqueKeys(notes, NoteKey) && UniqueKeys(notes, NoteId)
      && UniqueKeys(quizSessions, SessionId)
    }

    constructor ()
      ensures Valid()
      ensures favorites == [] && notes == [] && quizSessions == []
    {
      favorites := [];
      notes := [];
      quizSessions := [];
    }

    /** `getFavorites`. */
    method GetFavorites(userId: int) returns (r: seq<string>)
      ensures r == UserFavorites(favorites, userId)
      ensures forall s :: s in r <==> HasKey(favorites, FavoriteKey, userId, s)
    {
      r := UserFavorites(favorites, userId);
    }

    /** `addFavorite`: returns the pair's existing document, or the one it adds under the new id. */
    method AddFavorite(userId: int, shortcutId: string, newId: string, now: nat) returns (d: FavoriteDoc)
      requires Valid()
      requires forall i :: 0 <= i < |favorites| ==> favorites[i].id != newId
      modifies this
      ensures Valid()
      ensures favorites == AddedFavorites(old(favorites), userId, shortcutId, newId, now)
      ensures d in favorites && FavoriteKey(d) == (userId, shortcutId)
      ensures old(HasKey(favorites, FavoriteKey, userId, shortcutId)) ==> d in old(favorites)
      ensures notes == old(notes) && quizSessions == old(quizSessions)
    {
      AddFavoriteKeepsUnique(favorites, userId, shortcutId, newId, now);
      match FirstWithKey(favorites, FavoriteKey, userId, shortcutId)
      case Some(i) =>
        d := favorites[i];
      case None =>
        d := FavoriteDoc(newId, userId, shortcutId, now);
        favorites := favorites + [d];
    }

    /** `removeFavorite`: always succeeds. */
    method RemoveFavorite(userId: int, shortcutId: string) returns (success: bool)
      requires Valid()
      modifies this
      ensures Valid() && success
      ensures favorites == RemovedFavorites(old(favorites), userId, shortcutId)
      ensures !HasKey(favorites, FavoriteKey, userId, shortcutId)
      ensures notes == old(notes) && quizSessions == old(quizSessions)
    {
      RemoveFavoriteRemoves(favorites, userId, shortcutId);
      success := true;
      match FirstWithKey(favorites, FavoriteKey, userId, shortcutId)
      case None =>
      case Some(i) =>
        RemoveAtUnique(favorites, i, FavoriteId);
        favorites := RemoveAt(favorites, i);
    }

    /** `getUserNote`. */
    method GetUserNote(userId: int, shortcutId: string) returns (r: Option<NoteDoc>)
      ensures r == UserNote(notes, userId, shortcutId)
      ensures r.Some? <==> HasKey(notes, NoteKey, userId, shortcutId)
    {
      r := UserNote(notes, userId, shortcutId);
    }

    /** `createUserNote`: the upsert; returns the pair's note as it now stands. */
    method CreateUserNote(userId: int, shortcutId: string, note: string, newId: string, now: nat) returns (d: NoteDoc)
      requires Valid()
      requires forall i :: 0 <= i < |notes| ==> notes[i].id != newId
      modifies this
      ensures Valid()
      ensures notes == UpsertedNotes(old(notes), userId, shortcutId, note, newId, now)
      ensures UserNote(notes, userId, shortcutId) == Some(d) && d.note == note
      ensures favorites == old(favorites) && quizSessions == old(quizSessions)
    {
      UpsertKeepsUnique(notes, userId, shortcutId, note, newId, now);
      UpsertThenRead(notes, userId, shortcutId, note, newId, now);
      notes := UpsertedNotes(notes, userId, shortcutId, note, newId, now);
      d := UserNote(notes, userId, shortcutId).value;
    }

    /**
     * `updateUserNote`: throws "Note not found" when the pair has no note.
     * The stored note gets the text and the time; the returned object is
     * built from the snapshot read before the write, so it carries the new
     * text and the old `updatedAt`.
     */
    method UpdateUserNote(userId: int, shortcutId: string, note: string, now: nat) returns (r: Result<NoteDoc, string>)
      requires Valid()
      modifies this
      ensures Valid()
      ensures r.Err? <==> old(UserNote(notes, userId, shortcutId)).None?
      ensures r.Err? ==> r.error == NOTE_NOT_FOUND && notes == old(notes)
      ensures r.Ok? ==>
        && notes == UpdatedNotes(old(notes), userId, shortcutId, note, now).value
        && r.value == old(UserNote(notes, userId, shortcutId)).value.(note := note)
        && UserNote(notes, userId, shortcutId) == Some(r.value.(updatedAt := now))
      ensures favorites == old(favorites) && quizSessions == old(quizSessions)
    {
      UpdateKeepsUnique(notes, userId, shortcutId, note, now);
      UpdateThenRead(notes, userId, shortcutId, note, now);
      var u := UpdatedNotes(notes, userId, shortcutId, note, now);
      if u.Err? {
        r := Err(u.error);
      } else {
        r := Ok(UserNote(notes, userId, shortcutId).value.(note := note));
        notes := u.value;
      }
    }

    /** `deleteUserNote`: always succeeds; deleting an absent note changes nothing. */
    method DeleteUserNote(userId: int, shortcutId: string) returns (success: bool)
      requires Valid()
      modifies this
      ensures Valid() && success
      ensures notes == DeletedNotes(old(notes), userId, shortcutId)
      ensures UserNote(notes, userId, shortcutId).None?
      ensures favorites == old(favorites) && quizSessions == old(quizSessions)
    {
      DeleteNoteIdempotent(notes, userId, shortcutId);
      success := true;
      match FirstWithKey(notes, NoteKey, userId, shortcutId)
      case None =>
      case Some(i) =>
        RemoveAtUnique(notes, i, NoteId);
        notes := RemoveAt(notes, i);
    }

    /** `getQuizHistory`. */
    method GetQuizHistory(userId: int) returns (r: seq<SessionDoc>)
      ensures r == QuizHistory(quizSessions, userId)
      ensures NewestFirst(r) && |r| <= HISTORY_LIMIT
      ensures forall d :: d in r ==> d in quizSessions && d.userId == userId
    {
      QuizHistorySpec(quizSessions, userId);
      r := QuizHistory(quizSessions, userId);
    }

    /** `createQuizSession`: appends one session under the new id. */
    method CreateQuizSession(
      userId: int, platform: string, score: int, totalQuestions: int, completedAt: string, newId: string, now: nat)
      returns (d: SessionDoc)
      requires Valid()
      requires forall i :: 0 <= i < |quizSessions| ==> quizSessions[i].id != newId
      modifies this
      ensures Valid()
      ensures d == SessionDoc(newId, userId, platform, score, totalQuestions, completedAt, now)
      ensures quizSessions == old(quizSessions) + [d]
      ensures favorites == old(favorites) && notes == old(notes)
    {
      d := SessionDoc(newId, userId, platform, score, totalQuestions, completedAt, now);
      quizSessions := quizSessions + [d];
    }
  }
}
