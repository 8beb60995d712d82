/**
 * The request dispatcher of the document-store front end. An endpoint
 * path is cut at `/` with the empty pieces dropped; the first segment must
 * be `api`, the second names a resource, and the rest of the segments
 * together with the request's method select one store operation, or an
 * error whose message names what did not match. The operation itself is
 * the result here; carrying it out against the store is left out.
 */
module QueryClient {
  import opened Wrappers
  import opened Seqs
  import opened Text
  import opened Split

  /** The fields of a request's JSON body that the dispatcher reads. */
  datatype Body = Body(
    userId: int, shortcutId: string, note: string, tagId: string,
    platform: string, score: int, totalQuestions: int, completedAt: string)

  /**
   * The request options: the method (None when absent), the parsed body,
   * and the `q` search parameter of the request's `url` ("" when absent).
   */
  datatype Request = Request(verb: Option<string>, body: Body, query: string)

  /** The store operation a request is dispatched to; a user id segment is parsed by `parseInt`, NaN written None. */
  datatype Op =
    | GetShortcuts
    | GetShortcutsByPlatform(platform: string)
    | GetShortcutsByCategory(category: string)
    | SearchShortcuts(query: string)
    | AddFavorite(userId: int, shortcutId: string)
    | GetFavorites(user: Option<int>)
    | RemoveFavorite(user: Option<int>, shortcutId: string)
    | CreateUserNote(userId: int, shortcutId: string, note: string)
    | GetUserNote(user: Option<int>, shortcutId: string)
    | UpdateUserNote(user: Option<int>, shortcutId: string, note: string)
    | DeleteUserNote(user: Option<int>, shortcutId: string)
    | GetTags
    | AddShortcutTag(userId: int, shortcutId: string, tagId: string)
    | GetShortcutTags(user: Option<int>, shortcutId: string)
    | RemoveShortcutTag(user: Option<int>, shortcutId: string, tagId: string)
    | GetQuizHistory(user: Option<int>)
    | CreateQuizSession(userId: int, platform: string, score: int, totalQuestions: int, completedAt: string)

  /** `!options?.method`: no method, or the empty one. */
  predicate NoMethod(m: Option<string>)
  {
    m.None? || m.value == ""
  }

  /** `endpoint.split('/').filter(part => part !== '')`. */
  function Segments(endpoint: string): seq<string>
  {
    Tokens(endpoint, Is('/'))
  }

  /** The shortcuts routes: none, `platform/:p`, `category/:c`, and `search` followed by anything. */
  predicate ShortcutsRouted(parts: seq<string>)
  {
    || parts == []
    || (|parts| == 2 && (parts[0] == "platform" || parts[0] == "category"))
    || parts[0] == "search"
  }

  /** The favorites routes: POST on the collection, a read of `:userId`, DELETE of `:userId/:shortcutId`. */
  predicate FavoritesRouted(parts: seq<string>, verb: Option<string>)
  {
    || (parts == [] && verb == Some("POST"))
    || (|parts| == 1 && NoMethod(verb))
    || (|parts| == 2 && verb == Some("DELETE"))
  }

  /** The notes routes: POST on the collection; read, PUT or DELETE of `:userId/:shortcutId`. */
  predicate NotesRouted(parts: seq<string>, verb: Option<string>)
  {
    || (parts == [] && verb == Some("POST"))
    || (|parts| == 2 && (NoMethod(verb) || verb == Some("PUT") || verb == Some("DELETE")))
  }

  /** The shortcut-tags routes: POST on the collection, a read of two segments, DELETE of three. */
  predicate ShortcutTagsRouted(parts: seq<string>, verb: Option<string>)
  {
    || (parts == [] && verb == Some("POST"))
    || (|parts| == 2 && NoMethod(verb))
    || (|parts| == 3 && verb == Some("DELETE"))
  }

  /** `apiRequest`, up to the store call. */
  function ApiRequest(endpoint: string, req: Request): (r: Result<Op, string>)
  {
    var parts := Segments(endpoint);
    if parts == [] || parts[0] != "api" then Err("Invalid endpoint: " + endpoint)
    else if |parts| == 1 then Err("Unknown resource: undefined")
    else Route(parts[1], parts[2..], req)
  }

  /** The `switch (resource)` of `apiRequest`: the rest of the path goes to the resource's handler. */
  function Route(resource: string, rest: seq<string>, req: Request): Result<Op, string>
  {
    if resource == "shortcuts" then HandleShortcuts(rest, req)
    else if resource == "favorites" then HandleFavorites(rest, req)
    else if resource == "notes" then HandleNotes(rest, req)
    else if resource == "tags" then HandleTags(rest, req)
    else if resource == "shortcut-tags" then HandleShortcutTags(rest, req)
    else if resource == "quiz-history" then HandleQuizHistory(rest, req)
    else if resource == "quiz-sessions" then HandleQuizSessions(rest, req)
    else Err("Unknown resource: " + resource)
  }

  /** `handleShortcutsRequest`: `search` as first segment matches whatever follows it. */
  function HandleShortcuts(parts: seq<string>, req: Request): (r: Result<Op, string>)
    ensures r.Err? <==> !ShortcutsRouted(parts)
    ensures r.Err? ==> r.error == "Unknown shortcuts endpoint: " + Join(parts, '/')
  {
    if parts == [] then Ok(GetShortcuts)
    else if parts[0] == "platform" && |parts| == 2 then Ok(GetShortcutsByPlatform(parts[1]))
    else if parts[0] == "category" && |parts| == 2 then Ok(GetShortcutsByCategory(parts[1]))
    else if parts[0] == "search" then
      if req.query == "" then Ok(GetShortcuts) else Ok(SearchShortcuts(req.query))
    else Err("Unknown shortcuts endpoint: " + Join(parts, '/'))
  }

  /** `handleFavoritesRequest`. */
  function HandleFavorites(parts: seq<string>, req: Request): (r: Result<Op, string>)
    ensures r.Err? <==> !FavoritesRouted(parts, req.verb)
    ensures r.Err? ==> r.error == "Unknown favorites endpoint: " + Join(parts, '/')
  {
    if parts == [] && req.verb == Some("POST") then Ok(AddFavorite(req.body.userId, req.body.shortcutId))
    else if |parts| == 1 && NoMethod(req.verb) then Ok(GetFavorites(ParseInt(parts[0])))
    else if |parts| == 2 && req.verb == Some("DELETE") then Ok(RemoveFavorite(ParseInt(parts[0]), parts[1]))
    else Err("Unknown favorites endpoint: " + Join(parts, '/'))
  }

  /** `handleNotesRequest`. */
  function HandleNotes(parts: seq<string>, req: Request): (r: Result<Op, string>)
    ensures r.Err? <==> !NotesRouted(parts, req.verb)
    ensures r.Err? ==> r.error == "Unknown notes endpoint: " + Join(parts, '/')
  {
    if parts == [] && req.verb == Some("POST") then
      Ok(CreateUserNote(req.body.userId, req.body.shortcutId, req.body.note))
    else if |parts| == 2 && NoMethod(req.verb) then Ok(GetUserNote(ParseInt(parts[0]), parts[1]))
    else if |parts| == 2 && req.verb == Some("PUT") then Ok(UpdateUserNote(ParseInt(parts[0]), parts[1], req.body.note))
    else if |parts| == 2 && req.verb == Some("DELETE") then Ok(DeleteUserNote(ParseInt(parts[0]), parts[1]))
    else Err("Unknown notes endpoint: " + Join(parts, '/'))
  }

  /** `handleTagsRequest`. */
  function HandleTags(parts: seq<string>, req: Request): (r: Result<Op, string>)
    ensures r.Err? <==> !(parts == [] && NoMethod(req.verb))
    ensures r.Err? ==> r.error == "Unknown tags endpoint: " + Join(parts, '/')
  {
    if parts == [] && NoMethod(req.verb) then Ok(GetTags)
    else Err("Unknown tags endpoint: " + Join(parts, '/'))
  }

  /** `handleShortcutTagsRequest`. */
  function HandleShortcutTags(parts: seq<string>, req: Request): (r: Result<Op, string>)
    ensures r.Err? <==> !ShortcutTagsRouted(parts, req.verb)
    ensures r.Err? ==> r.error == "Unknown shortcut-tags endpoint: " + Join(parts, '/')
  {
    if parts == [] && req.verb == Some("POST") then
      Ok(AddShortcutTag(req.body.userId, req.body.shortcutId, req.body.tagId))
    else if |parts| == 2 && NoMethod(req.verb) then Ok(GetShortcutTags(ParseInt(parts[0]), parts[1]))
    else if |parts| == 3 && req.verb == Some("DELETE") then
      Ok(RemoveShortcutTag(ParseInt(parts[0]), parts[1], parts[2]))
    else Err("Unknown shortcut-tags endpoint: " + Join(parts, '/'))
  }

  /** `handleQuizHistoryRequest`. */
  function HandleQuizHistory(parts: seq<string>, req: Request): (r: Result<Op, string>)
    ensures r.Err? <==> !(|parts| == 1 && NoMethod(req.verb))
    ensures r.Err? ==> r.error == "Unknown quiz-history endpoint: " + Join(parts, '/')
  {
    if |parts| == 1 && NoMethod(req.verb) then Ok(GetQuizHistory(ParseInt(parts[0])))
    else Err("Unknown quiz-history endpoint: " + Join(parts, '/'))
  }

  /** `handleQuizSessionsRequest`. */
  function HandleQuizSessions(parts: seq<string>, req: Request): (r: Result<Op, string>)
    ensures r.Err? <==> !(parts == [] && req.verb == Some("POST"))
    ensures r.Err? ==> r.error == "Unknown quiz-sessions endpoint: " + Join(parts, '/')
  {
    if parts == [] && req.verb == Some("POST") then
      Ok(CreateQuizSession(req.body.userId, req.body.platform, req.body.score, req.body.totalQuestions, req.body.completedAt))
    else Err("Unknown quiz-sessions endpoint: " + Join(parts, '/'))
  }

  /** The segments never include an empty one or a `/`. */
  lemma SegmentsClean(endpoint: string)
    ensures forall i :: 0 <= i < |Segments(endpoint)| ==>
      Segments(endpoint)[i] != "" && forall j :: 0 <= j < |Segments(endpoint)[i]| ==> Segments(endpoint)[i][j] != '/'
  {
    TokensClean(endpoint, Is('/'));
  }

  /** A path whose first segment is not `api`, or that has none, is refused with "Invalid endpoint", and only such a path is. */
  lemma InvalidEndpoint(endpoint: string, req: Request)
    ensures ApiRequest(endpoint, req) == Err("Invalid endpoint: " + endpoint)
        <==> Segments(endpoint) == [] || Segments(endpoint)[0] != "api"
  {
    var parts := Segments(endpoint);
    if parts != [] && parts[0] == "api" {
      OtherErrorsUnknown(endpoint, req);
      assert ("Invalid endpoint: " + endpoint)[0] == 'I';
    }
  }

  /** Past the `api` check every error message starts with "Unknown". */
  lemma OtherErrorsUnknown(endpoint: string, req: Request)
    requires Segments(endpoint) != [] && Segments(endpoint)[0] == "api"
    ensures ApiRequest(endpoint, req).Err? ==> |ApiRequest(endpoint, req).error| > 0 && ApiRequest(endpoint, req).error[0] == 'U'
  {
  }

  predicate KnownResource(resource: string)
  {
    resource in ["shortcuts", "favorites", "notes", "tags", "shortcut-tags", "quiz-history", "quiz-sessions"]
  }

  /** After `api`, a resource outside the seven known ones is refused by name, whatever the method and the rest of the path. */
  lemma UnknownResource(endpoint: string, req: Request)
    requires |Segments(endpoint)| >= 2 && Segments(endpoint)[0] == "api"
    requires !KnownResource(Segments(endpoint)[1])
    ensures ApiRequest(endpoint, req) == Err("Unknown resource: " + Segments(endpoint)[1])
  {
    var resource := Segments(endpoint)[1];
    assert resource != "shortcuts" && resource != "favorites" && resource != "notes" && resource != "tags";
    assert resource != "shortcut-tags" && resource != "quiz-history" && resource != "quiz-sessions";
  }

  /**
   * Only a request with no method reaches a read: an explicit "GET" on the
   * favorites list of a user falls through to the error.
   */
  lemma ExplicitGetRefused(userSegment: string, req: Request)
    requires IsSegment(userSegment)
    requires req.verb == Some("GET")
    ensures ApiRequest("/api/favorites/" + userSegment, req) == Err("Unknown favorites endpoint: " + userSegment)
    ensures ApiRequest("/api/favorites/" + userSegment, req.(verb := None)) == Ok(GetFavorites(ParseInt(userSegment)))
  {
    var parts := ["api", "favorites", userSegment];
    SegmentsOfPath(parts);
    assert Join(parts[2..], '/') == userSegment;
    assert Join(parts[1..], '/') == "favorites/" + userSegment;
    assert Path(parts) == "/api/favorites/" + userSegment;
    assert Segments("/api/favorites/" + userSegment)[2..] == [userSegment];
  }

  /** A user segment written in hexadecimal is read in base 16: `/api/favorites/0x10` asks for user 16. */
  lemma HexUserSegment(digits: string, x: char, req: Request)
    requires digits != [] && AllHexDigits(digits)
    requires x == 'x' || x == 'X'
    ensures ApiRequest("/api/favorites/" + (['0', x] + digits), req.(verb := None)) == Ok(GetFavorites(Some(HexValue(digits))))
  {
    var segment := ['0', x] + digits;
    var get := req.(verb := Some("GET"));
    assert get.(verb := None) == req.(verb := None);
    assert IsSegment(segment) by {
      forall k | 0 <= k < |segment| ensures segment[k] != '/' {
        if k >= 2 {
          assert IsHexDigit(digits[k - 2]);
        }
      }
    }
    ExplicitGetRefused(segment, get);
    assert "" + segment == segment;
    Text.ParseIntHex(digits, "", x);
  }

  /** A valid path segment: non-empty and free of `/`. */
  predicate IsSegment(s: string)
  {
    s != "" && '/' !in s
  }

  /** The path `/a/b/c` of the segments `[a, b, c]`. */
  function Path(parts: seq<string>): string
  {
    "/" + Join(parts, '/')
  }

  /** Cutting a path made of valid segments gives those segments back. */
  lemma SegmentsOfPath(parts: seq<string>)
    requires forall i :: 0 <= i < |parts| ==> IsSegment(parts[i])
    ensures Segments(Path(parts)) == parts
  {
    if parts == [] {
      assert Path(parts) == "/";
      assert SplitOn("/", Is('/')) == ["", ""];
      FilterKeepsNone(["", ""], NonEmpty());
    } else {
      forall i | 0 <= i < |parts| ensures NoSep(parts[i], Is('/')) {
        assert forall j :: 0 <= j < |parts[i]| ==> parts[i][j] in parts[i];
      }
      SplitJoin(parts, '/');
      SplitAfterPiece("", '/', Join(parts, '/'));
      assert "" + ['/'] + Join(parts, '/') == Path(parts);
      FilterAppend([""], parts, NonEmpty());
      assert [""][..0] == [];
      FilterKeepsAll(parts, NonEmpty());
      assert [""] + parts == SplitOn(Path(parts), Is('/'));
    }
  }

  /** The decimal text of an integer, with a leading `-` when negative. */
  function IntToString(n: int): string
  {
    if n >= 0 then NatToString(n) else "-" + NatToString(-n)
  }

  /** The segment for a parsed user id; NaN comes from the text "NaN". */
  function UserSegment(user: Option<int>): string
  {
    match user
    case None => "NaN"
    case Some(n) => IntToString(n)
  }

  lemma UserSegmentParses(user: Option<int>)
    ensures IsSegment(UserSegment(user))
    ensures ParseInt(UserSegment(user)) == user
  {
    match user
    case None =>
      ParseIntNoDigit("NaN");
    case Some(n) =>
      if n >= 0 {
        ParseIntOfNatToString(n);
      } else {
        ParseIntOfNegated(-n);
      }
  }

  /** The fields of an operation that travel as path segments are valid segments. */
  predicate PathFieldsValid(op: Op)
  {
    match op
    case GetShortcutsByPlatform(p) => IsSegment(p)
    case GetShortcutsByCategory(c) => IsSegment(c)
    case SearchShortcuts(q) => q != ""
    case RemoveFavorite(_, s) => IsSegment(s)
    case GetUserNote(_, s) => IsSegment(s)
    case UpdateUserNote(_, s, _) => IsSegment(s)
    case DeleteUserNote(_, s) => IsSegment(s)
    case GetShortcutTags(_, s) => IsSegment(s)
    case RemoveShortcutTag(_, s, t) => IsSegment(s) && IsSegment(t)
    case _ => true
  }

  function NoBody(): Body
  {
    Body(0, "", "", "", "", 0, 0, "")
  }

  /** The request a caller issues for an operation: its path segments and options. */
  function Encode(op: Op): (seq<string>, Request)
  {
    match op
    case GetShortcuts => (["api", "shortcuts"], Request(None, NoBody(), ""))
    case GetShortcutsByPlatform(p) => (["api", "shortcuts", "platform", p], Request(None, NoBody(), ""))
    case GetShortcutsByCategory(c) => (["api", "shortcuts", "category", c], Request(None, NoBody(), ""))
    case SearchShortcuts(q) => (["api", "shortcuts", "search"], Request(None, NoBody(), q))
    case AddFavorite(u, s) => (["api", "favorites"], Request(Some("POST"), NoBody().(userId := u, shortcutId := s), ""))
    case GetFavorites(u) => (["api", "favorites", UserSegment(u)], Request(None, NoBody(), ""))
    case RemoveFavorite(u, s) => (["api", "favorites", UserSegment(u), s], Request(Some("DELETE"), NoBody(), ""))
    case CreateUserNote(u, s, n) =>
      (["api", "notes"], Request(Some("POST"), NoBody().(userId := u, shortcutId := s, note := n), ""))
    case GetUserNote(u, s) => (["api", "notes", UserSegment(u), s], Request(None, NoBody(), ""))
    case UpdateUserNote(u, s, n) => (["api", "notes", UserSegment(u), s], Request(Some("PUT"), NoBody().(note := n), ""))
    case DeleteUserNote(u, s) => (["api", "notes", UserSegment(u), s], Request(Some("DELETE"), NoBody(), ""))
    case GetTags => (["api", "tags"], Request(None, NoBody(), ""))
    case AddShortcutTag(u, s, t) =>
      (["api", "shortcut-tags"], Request(Some("POST"), NoBody().(userId := u, shortcutId := s, tagId := t), ""))
    case GetShortcutTags(u, s) => (["api", "shortcut-tags", UserSegment(u), s], Request(None, NoBody(), ""))
    case RemoveShortcutTag(u, s, t) =>
      (["api", "shortcut-tags", UserSegment(u), s, t], Request(Some("DELETE"), NoBody(), ""))
    case GetQuizHistory(u) => (["api", "quiz-history", UserSegment(u)], Request(None, NoBody(), ""))
    case CreateQuizSession(u, p, sc, t, c) =>
      (["api", "quiz-sessions"],
       Request(Some("POST"), NoBody().(userId := u, platform := p, score := sc, totalQuestions := t, completedAt := c), ""))
  }

  /** The path of an encoded operation is made of valid segments. */
  lemma EncodedSegmentsValid(op: Op)
    requires PathFieldsValid(op)
    ensures forall i :: 0 <= i < |Encode(op).0| ==> IsSegment(Encode(op).0[i])
  {
    match op {
      case GetFavorites(u) => UserSegmentParses(u);
      case RemoveFavorite(u, _) => UserSegmentParses(u);
      case GetUserNote(u, _) => UserSegmentParses(u);
      case UpdateUserNote(u, _, _) => UserSegmentParses(u);
      case DeleteUserNote(u, _) => UserSegmentParses(u);
      case GetShortcutTags(u, _) => UserSegmentParses(u);
      case RemoveShortcutTag(u, _, _) => UserSegmentParses(u);
      case GetQuizHistory(u) => UserSegmentParses(u);
      case _ =>
    }
  }

  /** The seven resource names differ pairwise; each pair differs at the position shown. */
  lemma ResourcesDistinct()
    ensures "favorites" != "shortcuts"
    ensures "notes" != "shortcuts" && "notes" != "favorites"
    ensures "tags" != "shortcuts" && "tags" != "favorites" && "tags" != "notes"
    ensures "shortcut-tags" != "shortcuts" && "shortcut-tags" != "favorites" && "shortcut-tags" != "notes" && "shortcut-tags" != "tags"
    ensures "quiz-history" != "shortcuts" && "quiz-history" != "favorites" && "quiz-history" != "notes"
    ensures "quiz-history" != "tags" && "quiz-history" != "shortcut-tags"
    ensures "quiz-sessions" != "shortcuts" && "quiz-sessions" != "favorites" && "quiz-sessions" != "notes"
    ensures "quiz-sessions" != "tags" && "quiz-sessions" != "shortcut-tags" && "quiz-sessions" != "quiz-history"
  {
    assert "favorites"[0] != "shortcuts"[0];
    assert "notes"[0] != "shortcuts"[0] && "notes"[0] != "favorites"[0];
    assert "tags"[0] != "shortcuts"[0] && "tags"[0] != "favorites"[0] && "tags"[0] != "notes"[0];
    assert "shortcut-tags"[8] != "shortcuts"[8];
    assert "shortcut-tags"[0] != "favorites"[0] && "shortcut-tags"[0] != "notes"[0] && "shortcut-tags"[0] != "tags"[0];
    assert "quiz-history"[0] != "shortcuts"[0] && "quiz-history"[0] != "favorites"[0] && "quiz-history"[0] != "notes"[0];
    assert "quiz-history"[0] != "tags"[0] && "quiz-history"[0] != "shortcut-tags"[0];
    assert "quiz-sessions"[0] != "shortcuts"[0] && "quiz-sessions"[0] != "favorites"[0] && "quiz-sessions"[0] != "notes"[0];
    assert "quiz-sessions"[0] != "tags"[0] && "quiz-sessions"[0] != "shortcut-tags"[0] && "quiz-sessions"[5] != "quiz-history"[5];
  }

  /** A path of valid segments starting with `api` and a resource is routed on that resource with the rest of the path. */
  lemma ApiRequestOfPath(parts: seq<string>, req: Request)
    requires |parts| >= 2 && parts[0] == "api"
    requires forall i :: 0 <= i < |parts| ==> IsSegment(parts[i])
    ensures ApiRequest(Path(parts), req) == Route(parts[1], parts[2..], req)
  {
    SegmentsOfPath(parts);
  }

  /** Every operation is reached by its own request: dispatching the encoded request gives the operation back. */
  lemma DispatchEncoded(op: Op)
    requires PathFieldsValid(op)
    ensures ApiRequest(Path(Encode(op).0), Encode(op).1) == Ok(op)
  {
    if op.GetShortcuts? || op.GetShortcutsByPlatform? || op.GetShortcutsByCategory? || op.SearchShortcuts? {
      DispatchShortcuts(op);
    } else if op.AddFavorite? || op.GetFavorites? || op.RemoveFavorite? {
      DispatchFavorites(op);
    } else if op.CreateUserNote? || op.UpdateUserNote? {
      DispatchNoteWrites(op);
    } else if op.GetUserNote? || op.DeleteUserNote? {
      DispatchNoteReads(op);
    } else if op.GetTags? || op.AddShortcutTag? {
      DispatchTagWrites(op);
    } else if op.GetShortcutTags? || op.RemoveShortcutTag? {
      DispatchTagReads(op);
    } else {
      DispatchQuiz(op);
    }
  }

  lemma DispatchShortcuts(op: Op)
    requires op.GetShortcuts? || op.GetShortcutsByPlatform? || op.GetShortcutsByCategory? || op.SearchShortcuts?
    requires PathFieldsValid(op)
    ensures ApiRequest(Path(Encode(op).0), Encode(op).1) == Ok(op)
  {
    var (parts, req) := Encode(op);
    EncodedSegmentsValid(op);
    ApiRequestOfPath(parts, req);
    ResourcesDistinct();
    assert Route(parts[1], parts[2..], req) == HandleShortcuts(parts[2..], req);
  }

  lemma DispatchFavorites(op: Op)
    requires op.AddFavorite? || op.GetFavorites? || op.RemoveFavorite?
    requires PathFieldsValid(op)
    ensures ApiRequest(Path(Encode(op).0), Encode(op).1) == Ok(op)
  {
    var (parts, req) := Encode(op);
    if !op.AddFavorite? {
      UserSegmentParses(op.user);
    }
    EncodedSegmentsValid(op);
    ApiRequestOfPath(parts, req);
    ResourcesDistinct();
    assert Route(parts[1], parts[2..], req) == HandleFavorites(parts[2..], req);
  }

  lemma DispatchNoteWrites(op: Op)
    requires op.CreateUserNote? || op.UpdateUserNote?
    requires PathFieldsValid(op)
    ensures ApiRequest(Path(Encode(op).0), Encode(op).1) == Ok(op)
  {
    var (parts, req) := Encode(op);
    if !op.CreateUserNote? {
      UserSegmentParses(op.user);
    }
    EncodedSegmentsValid(op);
    ApiRequestOfPath(parts, req);
    ResourcesDistinct();
    assert Route(parts[1], parts[2..], req) == HandleNotes(parts[2..], req);
  }

  lemma DispatchNoteReads(op: Op)
    requires op.GetUserNote? || op.DeleteUserNote?
    requires PathFieldsValid(op)
    ensures ApiRequest(Path(Encode(op).0), Encode(op).1) == Ok(op)
  {
    if op.GetUserNote? {
      DispatchNoteRead(op, None);
    } else {
      DispatchNoteRead(op, Some("DELETE"));
    }
  }

  /** A note read whose encoded request carries method `verb` (none for a read, DELETE for a delete) decodes back to itself. */
  lemma DispatchNoteRead(op: Op, verb: Option<string>)
    requires op.GetUserNote? || op.DeleteUserNote?
    requires PathFieldsValid(op)
    requires verb == Encode(op).1.verb
    ensures ApiRequest(Path(Encode(op).0), Encode(op).1) == Ok(op)
  {
    var (parts, req) := Encode(op);
    UserSegmentParses(op.user);
    EncodedSegmentsValid(op);
    ApiRequestOfPath(parts, req);
    ResourcesDistinct();
    var rest := parts[2..];
    assert rest == [UserSegment(op.user), op.shortcutId];
    assert Route(parts[1], rest, req) == HandleNotes(rest, req);
  }

  lemma DispatchTagWrites(op: Op)
    requires op.GetTags? || op.AddShortcutTag?
    requires PathFieldsValid(op)
    ensures ApiRequest(Path(Encode(op).0), Encode(op).1) == Ok(op)
  {
    var (parts, req) := Encode(op);
    EncodedSegmentsValid(op);
    ApiRequestOfPath(parts, req);
    ResourcesDistinct();
  }

  lemma DispatchTagReads(op: Op)
    requires op.GetShortcutTags? || op.RemoveShortcutTag?
    requires PathFieldsValid(op)
    ensures ApiRequest(Path(Encode(op).0), Encode(op).1) == Ok(op)
  {
    if op.GetShortcutTags? {
      DispatchTagRead(op, None);
    } else {
      DispatchTagRead(op, Some("DELETE"));
    }
  }

  /** A shortcut-tag read whose encoded request carries method `verb` (none for a read, DELETE for a removal) decodes back to itself. */
  lemma DispatchTagRead(op: Op, verb: Option<string>)
    requires op.GetShortcutTags? || op.RemoveShortcutTag?
    requires PathFieldsValid(op)
    requires verb == Encode(op).1.verb
    ensures ApiRequest(Path(Encode(op).0), Encode(op).1) == Ok(op)
  {
    var (parts, req) := Encode(op);
    UserSegmentParses(op.user);
    EncodedSegmentsValid(op);
    ApiRequestOfPath(parts, req);
    ResourcesDistinct();
    assert Route(parts[1], parts[2..], req) == HandleShortcutTags(parts[2..], req);
  }

  lemma DispatchQuiz(op: Op)
    requires op.GetQuizHistory? || op.CreateQuizSession?
    requires PathFieldsValid(op)
    ensures ApiRequest(Path(Encode(op).0), Encode(op).1) == Ok(op)
  {
    var (parts, req) := Encode(op);
    if !op.CreateQuizSession? {
      UserSegmentParses(op.user);
    }
    EncodedSegmentsValid(op);
    ApiRequestOfPath(parts, req);
    ResourcesDistinct();
  }
}
