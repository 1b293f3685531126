/** controllers/comment_controller.go: comments on photos, threaded by an
    optional parent comment. The comment table is a class whose handlers
    change it in place; each handler is a method proved equal to a
    specification function on the table's state, and the properties of the
    handlers (order of checks, what is stored, what is listed, what a change
    leaves alone, the table's integrity) are proved about those functions. */
module Comments {
  import opened Wrappers
  import opened Values
  import opened Http

  /** models.Comment without its timestamps and preloaded relations. */
  datatype Comment = Comment(id: Uuid, userId: Uuid, photoId: Uuid, message: string, parent: Option<Uuid>)

  /** The database as the comment handlers see it: the comments table in
      insertion order, the ids present in the users and photos tables (which
      the comments' foreign keys refer to), and whether queries succeed. */
  datatype Table = Table(rows: seq<Comment>, users: set<Uuid>, photos: set<Uuid>, available: bool)

  /** dto.CommentResponse without its timestamps. */
  datatype CommentView = CommentView(
    id: string, userId: string, photoId: string, message: string,
    parentId: Option<string>, repliesCount: nat)

  /** The `data` of a response: absent (BaseResponseError, BaseResponseSuccess),
      one comment, a list, or JSON null (a nil Go slice). */
  datatype Data = NoData | One(view: CommentView) | Many(views: seq<CommentView>) | Null

  /** A handler's answer: status, `message`, `data`. */
  datatype Reply = Reply(status: int, message: string, data: Data)

  // ---------------------------------------------------------------- queries

  /** `First(&comment, "id = ?", id)` on a reachable database. */
  function Find(rows: seq<Comment>, id: Uuid): (r: Option<Comment>)
    ensures r.Some? ==> r.value in rows && r.value.id == id
    ensures r.None? <==> forall x :: x in rows ==> x.id != id
  {
    if |rows| == 0 then None
    else if rows[0].id == id then Some(rows[0])
    else Find(rows[1..], id)
  }

  /** `Where("parent_comment_id IS NULL")`: the top-level comments in table order. */
  function TopLevel(rows: seq<Comment>): (r: seq<Comment>)
    ensures forall x :: x in r <==> x in rows && x.parent.None?
    ensures |r| <= |rows|
    decreases |rows|
  {
    if |rows| == 0 then []
    else
      var last := rows[|rows| - 1];
      assert rows == rows[..|rows| - 1] + [last];
      TopLevel(rows[..|rows| - 1]) + (if last.parent.None? then [last] else [])
  }

  /** `Where("parent_comment_id = ?", p)`, and the `Replies` relation of p:
      the direct replies of p in table order. */
  function RepliesOf(rows: seq<Comment>, p: Uuid): (r: seq<Comment>)
    ensures forall x :: x in r <==> x in rows && x.parent == Some(p)
    ensures |r| <= |rows|
    decreases |rows|
  {
    if |rows| == 0 then []
    else
      var last := rows[|rows| - 1];
      assert rows == rows[..|rows| - 1] + [last];
      RepliesOf(rows[..|rows| - 1], p) + (if last.parent == Some(p) then [last] else [])
  }

  /** The response record of a comment. `withParent` says whether the handler
      fills in ParentCommentID; `count` is its RepliesCount. */
  function Show(u: UuidCodec, cm: Comment, withParent: bool, count: nat): (v: CommentView)
    ensures LawfulCodec(u) ==>
      u.parse(v.id) == Some(cm.id) && u.parse(v.userId) == Some(cm.userId) && u.parse(v.photoId) == Some(cm.photoId)
    ensures v.parentId.Some? <==> withParent && cm.parent.Some?
    ensures LawfulCodec(u) && v.parentId.Some? ==> u.parse(v.parentId.value) == Some(cm.parent.value)
    ensures v.message == cm.message && v.repliesCount == count
  {
    CommentView(
      u.show(cm.id), u.show(cm.userId), u.show(cm.photoId), cm.message,
      if withParent && cm.parent.Some? then Some(u.show(cm.parent.value)) else None,
      count)
  }

  /** The response records of `cs`, each with the number of its direct
      replies in `rows` (the preloaded `Replies`). */
  function Views(u: UuidCodec, rows: seq<Comment>, cs: seq<Comment>, withParent: bool): (vs: seq<CommentView>)
    ensures |vs| == |cs|
    ensures forall i :: 0 <= i < |cs| ==>
      vs[i] == Show(u, cs[i], withParent, |RepliesOf(rows, cs[i].id)|)
    decreases |cs|
  {
    if |cs| == 0 then []
    else
      var last := cs[|cs| - 1];
      Views(u, rows, cs[..|cs| - 1], withParent) + [Show(u, last, withParent, |RepliesOf(rows, last.id)|)]
  }

  /** What `c.JSON` writes for a Go slice built by `append` from nil. */
  function ListData(vs: seq<CommentView>): (d: Data)
    ensures |vs| == 0 ==> d == Null
    ensures |vs| > 0 ==> d == Many(vs)
  {
    if |vs| == 0 then Null else Many(vs)
  }

  lemma TopLevelSnoc(rows: seq<Comment>, j: nat)
    requires j < |rows|
    ensures TopLevel(rows[..j + 1]) == TopLevel(rows[..j]) + (if rows[j].parent.None? then [rows[j]] else [])
  {
    assert rows[..j + 1][..j] == rows[..j];
  }

  lemma RepliesOfSnoc(rows: seq<Comment>, p: Uuid, j: nat)
    requires j < |rows|
    ensures RepliesOf(rows[..j + 1], p) == RepliesOf(rows[..j], p) + (if rows[j].parent == Some(p) then [rows[j]] else [])
  {
    assert rows[..j + 1][..j] == rows[..j];
  }

  lemma ViewsSnoc(u: UuidCodec, rows: seq<Comment>, cs: seq<Comment>, x: Comment, withParent: bool)
    ensures Views(u, rows, cs + [x], withParent) ==
      Views(u, rows, cs, withParent) + [Show(u, x, withParent, |RepliesOf(rows, x.id)|)]
  {
    assert (cs + [x])[..|cs|] == cs;
  }

  /** The comment First returns is the earliest row with that id. */
  lemma {:induction false} FindIsFirst(rows: seq<Comment>, id: Uuid)
    requires Find(rows, id).Some?
    ensures exists i :: 0 <= i < |rows| && rows[i] == Find(rows, id).value && forall j :: 0 <= j < i ==> rows[j].id != id
    decreases |rows|
  {
    if rows[0].id != id {
      FindIsFirst(rows[1..], id);
      var i :| 0 <= i < |rows[1..]| && rows[1..][i] == Find(rows, id).value &&
               forall j :: 0 <= j < i ==> rows[1..][j].id != id;
      assert rows[i + 1] == Find(rows, id).value;
      assert forall j :: 0 <= j < i + 1 ==> rows[j].id != id by {
        forall j | 0 <= j < i + 1 ensures rows[j].id != id {
          if j > 0 { assert rows[j] == rows[1..][j - 1]; }
        }
      }
    }
  }

  /** The top-level comments are listed with their multiplicity in the table,
      and nothing else is. */
  lemma {:induction false} TopLevelCounts(rows: seq<Comment>, x: Comment)
    ensures multiset(TopLevel(rows))[x] == if x.parent.None? then multiset(rows)[x] else 0
    decreases |rows|
  {
    if |rows| > 0 {
      var init := rows[..|rows| - 1];
      var last := rows[|rows| - 1];
      assert rows == init + [last];
      TopLevelCounts(init, x);
    }
  }

  /** The direct replies of `p` are listed with their multiplicity in the
      table, and nothing else is; so RepliesCount counts exactly them. */
  lemma {:induction false} RepliesOfCounts(rows: seq<Comment>, p: Uuid, x: Comment)
    ensures multiset(RepliesOf(rows, p))[x] == if x.parent == Some(p) then multiset(rows)[x] else 0
    decreases |rows|
  {
    if |rows| > 0 {
      var init := rows[..|rows| - 1];
      var last := rows[|rows| - 1];
      assert rows == init + [last];
      RepliesOfCounts(init, p, x);
    }
  }

  // -------------------------------------------------------------- integrity

  /** Comment ids are unique (the primary key). */
  ghost predicate UniqueIds(rows: seq<Comment>)
    decreases |rows|
  {
    |rows| == 0 || ((forall x :: x in rows[1..] ==> x.id != rows[0].id) && UniqueIds(rows[1..]))
  }

  /** What the database's constraints and the handlers keep true: unique ids,
      every comment's user and photo exist, every reply's parent exists and
      is on the same photo. */
  ghost predicate Valid(t: Table): (r: bool)
    ensures r ==> forall x :: x in t.rows ==> Find(t.rows, x.id) == Some(x)
  {
    && UniqueIds(t.rows)
    && (FindsEveryRow(t.rows); true)
    && (forall x :: x in t.rows ==> x.userId in t.users && x.photoId in t.photos)
    && (forall x :: x in t.rows && x.parent.Some? ==>
          Find(t.rows, x.parent.value).Some? && Find(t.rows, x.parent.value).value.photoId == x.photoId)
  }

  /** With unique ids, each row is the one its id finds. */
  lemma FindsEveryRow(rows: seq<Comment>)
    requires UniqueIds(rows)
    ensures forall x :: x in rows ==> Find(rows, x.id) == Some(x)
  {
    forall x | x in rows ensures Find(rows, x.id) == Some(x) {
      FindUnique(rows, x);
    }
  }

  lemma {:induction false} FindUnique(rows: seq<Comment>, x: Comment)
    requires UniqueIds(rows) && x in rows
    ensures Find(rows, x.id) == Some(x)
    decreases |rows|
  {
    if rows[0] != x {
      assert x in rows[1..];
      FindUnique(rows[1..], x);
    }
  }

  lemma {:induction false} FindAppend(rows: seq<Comment>, y: Comment, id: Uuid)
    ensures Find(rows + [y], id) == if Find(rows, id).Some? then Find(rows, id)
                                  else if y.id == id then Some(y) else None
    decreases |rows|
  {
    if |rows| > 0 {
      assert (rows + [y])[1..] == rows[1..] + [y];
      FindAppend(rows[1..], y, id);
    }
  }

  lemma {:induction false} UniqueAppend(rows: seq<Comment>, y: Comment)
    requires UniqueIds(rows) && Find(rows, y.id).None?
    ensures UniqueIds(rows + [y])
    decreases |rows|
  {
    if |rows| > 0 {
      assert (rows + [y])[1..] == rows[1..] + [y];
      UniqueAppend(rows[1..], y);
    } else {
      assert (rows + [y])[1..] == [];
    }
  }

  /** `Where("id = ?", id).Delete(...)`: every comment with that id removed. */
  function Remove(rows: seq<Comment>, id: Uuid): (r: seq<Comment>)
    ensures forall x :: x in r <==> x in rows && x.id != id
    decreases |rows|
  {
    if |rows| == 0 then []
    else if rows[0].id == id then Remove(rows[1..], id)
    else [rows[0]] + Remove(rows[1..], id)
  }

  /** Removal drops every row with the id and keeps every other row with
      its multiplicity. */
  lemma {:induction false} RemoveCounts(rows: seq<Comment>, id: Uuid, x: Comment)
    ensures multiset(Remove(rows, id))[x] == if x.id == id then 0 else multiset(rows)[x]
    decreases |rows|
  {
    if |rows| > 0 {
      assert rows == [rows[0]] + rows[1..];
      RemoveCounts(rows[1..], id, x);
    }
  }

  lemma {:induction false} RemoveKeeps(rows: seq<Comment>, id: Uuid)
    requires UniqueIds(rows)
    ensures UniqueIds(Remove(rows, id))
    ensures forall k :: k != id ==> Find(Remove(rows, id), k) == Find(rows, k)
    ensures Find(rows, id).Some? ==> |Remove(rows, id)| == |rows| - 1
    ensures Find(rows, id).None? ==> Remove(rows, id) == rows
    decreases |rows|
  {
    if |rows| > 0 {
      RemoveKeeps(rows[1..], id);
      if rows[0].id == id {
        assert Find(rows[1..], id).None?;
      } else {
        var r := [rows[0]] + Remove(rows[1..], id);
        assert r[1..] == Remove(rows[1..], id);
      }
    }
  }

  /** `Model(&comment).Updates(...)` on the comment with id `id`. */
  function Replace(rows: seq<Comment>, id: Uuid, y: Comment): (r: seq<Comment>)
    ensures |r| == |rows|
    ensures forall i :: 0 <= i < |rows| ==> r[i] == if rows[i].id == id then y else rows[i]
    decreases |rows|
  {
    if |rows| == 0 then []
    else [if rows[0].id == id then y else rows[0]] + Replace(rows[1..], id, y)
  }

  lemma {:induction false} ReplaceKeeps(rows: seq<Comment>, id: Uuid, y: Comment)
    requires UniqueIds(rows) && y.id == id
    ensures UniqueIds(Replace(rows, id, y))
    ensures forall k :: k != id ==> Find(Replace(rows, id, y), k) == Find(rows, k)
    ensures Find(rows, id).Some? ==> Find(Replace(rows, id, y), id) == Some(y)
    ensures forall x :: x in Replace(rows, id, y) ==> x == y || (x in rows && x.id != id)
    decreases |rows|
  {
    if |rows| > 0 {
      ReplaceKeeps(rows[1..], id, y);
      var r := Replace(rows, id, y);
      assert r[1..] == Replace(rows[1..], id, y);
      forall x | x in r[1..] ensures x.id != r[0].id {
        if rows[0].id != id {
          assert x == y || (x in rows[1..] && x.id != id);
        }
      }
    }
  }

  // --------------------------------------------------------------- handlers

  const CreatedMessage := "Comment created successfully"
  const ListedMessage := "Comments retrieved successfully"
  const UpdatedMessage := "Comment updated successfully"
  const DeletedMessage := "Comment deleted successfully"
  const ReplyCreatedMessage := "Reply created successfully"
  const RepliesListedMessage := "Replies retrieved successfully"
  const InvalidPhotoMessage := "Invalid photo ID"
  const InvalidCommentMessage := "Invalid comment ID"
  const InvalidParentMessage := "Invalid parent comment ID"
  const CommentNotFoundMessage := "Comment not found"
  const ParentNotFoundMessage := "Parent comment not found"
  const CreateFailedMessage := "Failed to create comment"
  const ListFailedMessage := "Failed to retrieve comments"
  const LookupFailedMessage := "Failed to retrieve comment"
  const DeleteFailedMessage := "Failed to delete comment"
  const ParentLookupFailedMessage := "Failed to retrieve parent comment"
  const ReplyFailedMessage := "Failed to create reply"
  const RepliesFailedMessage := "Failed to retrieve replies"

  /** `DB.Create(&comment)`: it fails when the database is down, when the id
      is taken, or when a foreign key (user, photo, parent) has no row. */
  predicate Insertable(t: Table, cm: Comment): (r: bool)
    ensures r ==> Find(t.rows, cm.id).None? && Find(t.rows + [cm], cm.id) == Some(cm)
    ensures r ==> cm.userId in t.users && cm.photoId in t.photos
  {
    FindAppend(t.rows, cm, cm.id);
    && t.available
    && Find(t.rows, cm.id).None?
    && cm.userId in t.users && cm.photoId in t.photos
    && (cm.parent.Some? ==> Find(t.rows, cm.parent.value).Some?)
  }

  /** Create: the caller must be readable from "userData" (a panic, answered
      500, otherwise); then the body must bind (400 with the binder's text),
      then photo_id must parse (400 "Invalid photo ID"); the new top-level
      comment gets `freshId` (uuid.New()) and the caller's id, parsed with its
      error ignored; a failed insert answers 500. */
  function CreateSpec(u: UuidCodec, t: Table, c: Context, freshId: Uuid): (r: (Table, Reply))
    ensures r.1.status != StatusCreated ==> r.0 == t
  {
    match CallerId(c)
    case None => (t, Reply(StatusInternalServerError, PanicMessage, NoData))
    case Some(callerText) =>
      var userID := ParseIgnoringError(u, callerText);
      match c.req.body.asCreate
      case Err(e) => (t, Reply(StatusBadRequest, e, NoData))
      case Ok(req) =>
        match u.parse(req.photoId)
        case None => (t, Reply(StatusBadRequest, InvalidPhotoMessage, NoData))
        case Some(photoID) =>
          var cm := Comment(freshId, userID, photoID, req.message, None);
          if !Insertable(t, cm) then (t, Reply(StatusInternalServerError, CreateFailedMessage, NoData))
          else (t.(rows := t.rows + [cm]), Reply(StatusCreated, CreatedMessage, One(Show(u, cm, false, 0))))
  }

  /** GetAll: every top-level comment with the number of its direct replies. */
  function GetAllSpec(u: UuidCodec, t: Table): (r: Reply)
    ensures r.status == StatusOK <==> t.available
    ensures r.status != StatusOK ==> r == Reply(StatusInternalServerError, ListFailedMessage, NoData)
  {
    if !t.available then Reply(StatusInternalServerError, ListFailedMessage, NoData)
    else Reply(StatusOK, ListedMessage, ListData(Views(u, t.rows, TopLevel(t.rows), false)))
  }

  /** The comment after `Updates(models.Comment{Message: m})`: gorm skips
      zero-valued fields, so an empty message changes nothing. */
  function WithMessage(cm: Comment, m: string): (r: Comment)
    ensures r.id == cm.id && r.userId == cm.userId && r.photoId == cm.photoId && r.parent == cm.parent
    ensures r.message == if m == "" then cm.message else m
  {
    if m == "" then cm else cm.(message := m)
  }

  /** Update: the id parses (400), then the body binds (400), then the
      comment is found (404, or 500 when the query fails); only the message
      changes, and the reply shows the re-read comment. */
  function UpdateSpec(u: UuidCodec, t: Table, c: Context): (r: (Table, Reply))
    ensures r.1.status != StatusOK ==> r.0 == t
  {
    match u.parse(Param(c, "commentID"))
    case None => (t, Reply(StatusBadRequest, InvalidCommentMessage, NoData))
    case Some(id) =>
      match c.req.body.asMessage
      case Err(e) => (t, Reply(StatusBadRequest, e, NoData))
      case Ok(m) =>
        if !t.available then (t, Reply(StatusInternalServerError, LookupFailedMessage, NoData))
        else match Find(t.rows, id)
          case None => (t, Reply(StatusNotFound, CommentNotFoundMessage, NoData))
          case Some(cm) =>
            var updated := WithMessage(cm, m);
            (t.(rows := Replace(t.rows, id, updated)), Reply(StatusOK, UpdatedMessage, One(Show(u, updated, false, 0))))
  }

  /** Delete: the id parses (400), the comment is found (404, or 500 when the
      query fails), and the delete succeeds unless another comment still
      replies to it (the parent foreign key refuses, 500). */
  function DeleteSpec(u: UuidCodec, t: Table, c: Context): (r: (Table, Reply))
    ensures r.1.status != StatusOK ==> r.0 == t
  {
    match u.parse(Param(c, "commentID"))
    case None => (t, Reply(StatusBadRequest, InvalidCommentMessage, NoData))
    case Some(id) =>
      if !t.available then (t, Reply(StatusInternalServerError, LookupFailedMessage, NoData))
      else match Find(t.rows, id)
        case None => (t, Reply(StatusNotFound, CommentNotFoundMessage, NoData))
        case Some(_) =>
          if |RepliesOf(t.rows, id)| > 0 then (t, Reply(StatusInternalServerError, DeleteFailedMessage, NoData))
          else (t.(rows := Remove(t.rows, id)), Reply(StatusOK, DeletedMessage, NoData))
  }

  /** CreateReply: the parent id parses (400) and the parent exists (404, or
      500 when the query fails), both before the caller is read (panic, 500)
      and before the body is bound (400); the reply takes the parent's photo,
      points at the parent, and is answered with RepliesCount 0. */
  function CreateReplySpec(u: UuidCodec, t: Table, c: Context, freshId: Uuid): (r: (Table, Reply))
    ensures r.1.status != StatusCreated ==> r.0 == t
  {
    match u.parse(Param(c, "parentCommentID"))
    case None => (t, Reply(StatusBadRequest, InvalidParentMessage, NoData))
    case Some(parentID) =>
      if !t.available then (t, Reply(StatusInternalServerError, ParentLookupFailedMessage, NoData))
      else match Find(t.rows, parentID)
        case None => (t, Reply(StatusNotFound, ParentNotFoundMessage, NoData))
        case Some(parent) =>
          match CallerId(c)
          case None => (t, Reply(StatusInternalServerError, PanicMessage, NoData))
          case Some(callerText) =>
            var userID := ParseIgnoringError(u, callerText);
            match c.req.body.asMessage
            case Err(e) => (t, Reply(StatusBadRequest, e, NoData))
            case Ok(m) =>
              var reply := Comment(freshId, userID, parent.photoId, m, Some(parentID));
              if !Insertable(t, reply) then (t, Reply(StatusInternalServerError, ReplyFailedMessage, NoData))
              else (t.(rows := t.rows + [reply]), Reply(StatusCreated, ReplyCreatedMessage, One(Show(u, reply, true, 0))))
  }

  /** GetReplies: the parent id parses (400) and the parent exists (404, or
      500 when the query fails); then its direct replies are listed, each with
      its parent id and the number of its own replies. */
  function GetRepliesSpec(u: UuidCodec, t: Table, c: Context): (r: Reply)
    ensures r.status in {StatusOK, StatusBadRequest, StatusNotFound, StatusInternalServerError}
    ensures r.status != StatusOK ==> r.data == NoData
  {
    match u.parse(Param(c, "parentCommentID"))
    case None => Reply(StatusBadRequest, InvalidParentMessage, NoData)
    case Some(parentID) =>
      if !t.available then Reply(StatusInternalServerError, ParentLookupFailedMessage, NoData)
      else match Find(t.rows, parentID)
        case None => Reply(StatusNotFound, ParentNotFoundMessage, NoData)
        case Some(_) => Reply(StatusOK, RepliesListedMessage, ListData(Views(u, t.rows, RepliesOf(t.rows, parentID), true)))
  }

  /** The number of direct replies of `p`, counted over the table. */
  method CountReplies(rows: seq<Comment>, p: Uuid) returns (n: nat)
    ensures n == |RepliesOf(rows, p)|
  {
    n := 0;
    for j := 0 to |rows|
      invariant n == |RepliesOf(rows[..j], p)|
    {
      RepliesOfSnoc(rows, p, j);
      if rows[j].parent == Some(p) {
        n := n + 1;
      }
    }
    assert rows[..|rows|] == rows;
  }

  /** GetAll's loop: one pass over the table, appending the response record
      of each top-level comment with its replies counted. */
  method ListTopLevel(u: UuidCodec, rows: seq<Comment>) returns (out: seq<CommentView>)
    ensures out == Views(u, rows, TopLevel(rows), false)
  {
    out := [];
    for j := 0 to |rows|
      invariant out == Views(u, rows, TopLevel(rows[..j]), false)
    {
      TopLevelSnoc(rows, j);
      var cm := rows[j];
      if cm.parent.None? {
        var n := CountReplies(rows, cm.id);
        ViewsSnoc(u, rows, TopLevel(rows[..j]), cm, false);
        out := out + [Show(u, cm, false, n)];
      }
    }
    assert rows[..|rows|] == rows;
  }

  /** GetReplies' loop: one pass over the table, appending the response
      record of each direct reply of `p` with its own replies counted. */
  method ListReplies(u: UuidCodec, rows: seq<Comment>, p: Uuid) returns (out: seq<CommentView>)
    ensures out == Views(u, rows, RepliesOf(rows, p), true)
  {
    out := [];
    for j := 0 to |rows|
      invariant out == Views(u, rows, RepliesOf(rows[..j], p), true)
    {
      RepliesOfSnoc(rows, p, j);
      var cm := rows[j];
      if cm.parent == Some(p) {
        var n := CountReplies(rows, cm.id);
        ViewsSnoc(u, rows, RepliesOf(rows[..j], p), cm, true);
        out := out + [Show(u, cm, true, n)];
      }
    }
    assert rows[..|rows|] == rows;
  }

  // ------------------------------------------------------ the table object

  /** The comment table, changed in place by the handlers. */
  class CommentTable {
    var rows: seq<Comment>
    var users: set<Uuid>
    var photos: set<Uuid>
    var available: bool

    function State(): Table
      reads this
    {
      Table(rows, users, photos, available)
    }

    constructor (users: set<Uuid>, photos: set<Uuid>)
      ensures State() == Table([], users, photos, true)
    {
      this.rows := [];
      this.users := users;
      this.photos := photos;
      this.available := true;
    }

    method Create(u: UuidCodec, c: Context, freshId: Uuid) returns (r: Reply)
      modifies this
      ensures (State(), r) == CreateSpec(u, old(State()), c, freshId)
    {
      var callerId := CallerId(c);
      if callerId.None? {
        return Reply(StatusInternalServerError, PanicMessage, NoData);
      }
      var userID := ParseIgnoringError(u, callerId.value);
      if c.req.body.asCreate.Err? {
        return Reply(StatusBadRequest, c.req.body.asCreate.error, NoData);
      }
      var req := c.req.body.asCreate.value;
      var photoID := u.parse(req.photoId);
      if photoID.None? {
        return Reply(StatusBadRequest, InvalidPhotoMessage, NoData);
      }
      var cm := Comment(freshId, userID, photoID.value, req.message, None);
      if !Insertable(State(), cm) {
        return Reply(StatusInternalServerError, CreateFailedMessage, NoData);
      }
      rows := rows + [cm];
      r := Reply(StatusCreated, CreatedMessage, One(Show(u, cm, false, 0)));
    }

    /** GetAll: one pass over the top-level comments, appending each one's
      response record with its replies counted. */
    method GetAll(u: UuidCodec) returns (r: Reply)
      ensures r == GetAllSpec(u, State())
    {
      if !available {
        return Reply(StatusInternalServerError, ListFailedMessage, NoData);
      }
      var out := ListTopLevel(u, rows);
      r := Reply(StatusOK, ListedMessage, ListData(out));
    }

    method Update(u: UuidCodec, c: Context) returns (r: Reply)
      modifies this
      ensures (State(), r) == UpdateSpec(u, old(State()), c)
    {
      var id := u.parse(Param(c, "commentID"));
      if id.None? {
        return Reply(StatusBadRequest, InvalidCommentMessage, NoData);
      }
      if c.req.body.asMessage.Err? {
        return Reply(StatusBadRequest, c.req.body.asMessage.error, NoData);
      }
      var m := c.req.body.asMessage.value;
      if !available {
        return Reply(StatusInternalServerError, LookupFailedMessage, NoData);
      }
      var found := Find(rows, id.value);
      if found.None? {
        return Reply(StatusNotFound, CommentNotFoundMessage, NoData);
      }
      var updated := WithMessage(found.value, m);
      rows := Replace(rows, id.value, updated);
      r := Reply(StatusOK, UpdatedMessage, One(Show(u, updated, false, 0)));
    }

    method Delete(u: UuidCodec, c: Context) returns (r: Reply)
      modifies this
      ensures (State(), r) == DeleteSpec(u, old(State()), c)
    {
      var id := u.parse(Param(c, "commentID"));
      if id.None? {
        return Reply(StatusBadRequest, InvalidCommentMessage, NoData);
      }
      if !available {
        return Reply(StatusInternalServerError, LookupFailedMessage, NoData);
      }
      if Find(rows, id.value).None? {
        return Reply(StatusNotFound, CommentNotFoundMessage, NoData);
      }
      var replies := CountReplies(rows, id.value);
      if replies > 0 {
        return Reply(StatusInternalServerError, DeleteFailedMessage, NoData);
      }
      rows := Remove(rows, id.value);
      r := Reply(StatusOK, DeletedMessage, NoData);
    }

    method CreateReply(u: UuidCodec, c: Context, freshId: Uuid) returns (r: Reply)
      modifies this
      ensures (State(), r) == CreateReplySpec(u, old(State()), c, freshId)
    {
      var parentID := u.parse(Param(c, "parentCommentID"));
      if parentID.None? {
        return Reply(StatusBadRequest, InvalidParentMessage, NoData);
      }
      if !available {
        return Reply(StatusInternalServerError, ParentLookupFailedMessage, NoData);
      }
      var parent := Find(rows, parentID.value);
      if parent.None? {
        return Reply(StatusNotFound, ParentNotFoundMessage, NoData);
      }
      var callerId := CallerId(c);
      if callerId.None? {
        return Reply(StatusInternalServerError, PanicMessage, NoData);
      }
      var userID := ParseIgnoringError(u, callerId.value);
      if c.req.body.asMessage.Err? {
        return Reply(StatusBadRequest, c.req.body.asMessage.error, NoData);
      }
      var reply := Comment(freshId, userID, parent.value.photoId, c.req.body.asMessage.value, Some(parentID.value));
      if !Insertable(State(), reply) {
        return Reply(StatusInternalServerError, ReplyFailedMessage, NoData);
      }
      rows := rows + [reply];
      r := Reply(StatusCreated, ReplyCreatedMessage, One(Show(u, reply, true, 0)));
    }

    /** GetReplies: one pass over the table, appending the response record of
      each direct reply of the parent with its own replies counted. */
    method GetReplies(u: UuidCodec, c: Context) returns (r: Reply)
      ensures r == GetRepliesSpec(u, State(), c)
    {
      var parentID := u.parse(Param(c, "parentCommentID"));
      if parentID.None? {
        return Reply(StatusBadRequest, InvalidParentMessage, NoData);
      }
      if !available {
        return Reply(StatusInternalServerError, ParentLookupFailedMessage, NoData);
      }
      if Find(rows, parentID.value).None? {
        return Reply(StatusNotFound, ParentNotFoundMessage, NoData);
      }
      var out := ListReplies(u, rows, parentID.value);
      r := Reply(StatusOK, RepliesListedMessage, ListData(out));
    }
  }

  // ------------------------------------------------------------ properties

  /** A created comment is the caller's, on the photo the body names, with
      the body's message and no parent; it is appended under `freshId` and
      answered with no parent id and RepliesCount 0. */
  lemma CreateStoresCallersComment(u: UuidCodec, t: Table, c: Context, freshId: Uuid)
    requires CreateSpec(u, t, c, freshId).1.status == StatusCreated
    ensures CallerId(c).Some? && c.req.body.asCreate.Ok? && u.parse(c.req.body.asCreate.value.photoId).Some?
    ensures var req := c.req.body.asCreate.value;
      var cm := Comment(freshId, ParseIgnoringError(u, CallerId(c).value), u.parse(req.photoId).value, req.message, None);
      && CreateSpec(u, t, c, freshId).0.rows == t.rows + [cm]
      && CreateSpec(u, t, c, freshId).1.data == One(CommentView(u.show(freshId), u.show(cm.userId), u.show(cm.photoId), req.message, None, 0))
  {
  }

  /** A created comment belongs to the caller the stored claims name: the
      id the handler parses with its error ignored is the caller's own. */
  lemma CreatedCommentIsCallers(u: UuidCodec, t: Table, c: Context, freshId: Uuid, userID: Uuid)
    requires LawfulCodec(u) && CallerId(c) == Some(u.show(userID))
    requires CreateSpec(u, t, c, freshId).1.status == StatusCreated
    ensures var rows := CreateSpec(u, t, c, freshId).0.rows;
      |rows| == |t.rows| + 1 && rows[..|t.rows|] == t.rows && rows[|t.rows|].userId == userID
  {
    CreateStoresCallersComment(u, t, c, freshId);
    ParseIgnoringErrorOfShown(u, userID);
    var rows := CreateSpec(u, t, c, freshId).0.rows;
    assert rows[..|t.rows|] == t.rows;
  }

  /** Create checks, in this order, the caller, the body and the photo id,
      and stores nothing on any of those failures. */
  lemma CreateRejections(u: UuidCodec, t: Table, c: Context, freshId: Uuid)
    ensures CallerId(c).None? ==> CreateSpec(u, t, c, freshId) == (t, Reply(StatusInternalServerError, PanicMessage, NoData))
    ensures CallerId(c).Some? && c.req.body.asCreate.Err? ==>
      CreateSpec(u, t, c, freshId) == (t, Reply(StatusBadRequest, c.req.body.asCreate.error, NoData))
    ensures CallerId(c).Some? && c.req.body.asCreate.Ok? && u.parse(c.req.body.asCreate.value.photoId).None? ==>
      CreateSpec(u, t, c, freshId) == (t, Reply(StatusBadRequest, InvalidPhotoMessage, NoData))
  {
  }

  lemma {:induction false} CreateKeepsValid(u: UuidCodec, t: Table, c: Context, freshId: Uuid)
    requires Valid(t)
    ensures Valid(CreateSpec(u, t, c, freshId).0)
  {
    var r := CreateSpec(u, t, c, freshId);
    if r.1.status == StatusCreated {
      var cm := r.0.rows[|r.0.rows| - 1];
      assert r.0.rows == t.rows + [cm];
      AppendKeepsValid(t, cm);
    }
  }

  /** Appending an insertable comment that is top-level, or a reply on its
      parent's photo, keeps the table valid. */
  lemma AppendKeepsValid(t: Table, cm: Comment)
    requires Valid(t) && Insertable(t, cm)
    requires cm.parent.Some? ==> Find(t.rows, cm.parent.value).value.photoId == cm.photoId
    ensures Valid(t.(rows := t.rows + [cm]))
  {
    var rows := t.rows + [cm];
    UniqueAppend(t.rows, cm);
    forall x | x in rows && x.parent.Some?
      ensures Find(rows, x.parent.value).Some? && Find(rows, x.parent.value).value.photoId == x.photoId
    {
      FindAppend(t.rows, cm, x.parent.value);
    }
  }

  /** GetAll lists the top-level comments and nothing else, each as often
      as it occurs, with the number of comments that reply to it directly. */
  lemma GetAllListsTopLevel(u: UuidCodec, t: Table)
    requires t.available
    ensures var r := GetAllSpec(u, t);
      var vs := Views(u, t.rows, TopLevel(t.rows), false);
      && r.status == StatusOK
      && r.data == ListData(vs)
      && (r.data == Null <==> forall x :: x in t.rows ==> x.parent.Some?)
      && |vs| == |TopLevel(t.rows)|
      && (forall x :: multiset(TopLevel(t.rows))[x] == if x.parent.None? then multiset(t.rows)[x] else 0)
      && forall i :: 0 <= i < |vs| ==>
           && TopLevel(t.rows)[i] in t.rows && TopLevel(t.rows)[i].parent.None?
           && vs[i].id == u.show(TopLevel(t.rows)[i].id)
           && vs[i].parentId.None?
           && (forall x :: multiset(RepliesOf(t.rows, TopLevel(t.rows)[i].id))[x] ==
                 if x.parent == Some(TopLevel(t.rows)[i].id) then multiset(t.rows)[x] else 0)
           && vs[i].repliesCount == |RepliesOf(t.rows, TopLevel(t.rows)[i].id)|
  {
    GetAllViews(u, t);
    GetAllCounts(t.rows);
  }

  /** How often each row occurs among the top-level rows and among each
      top-level row's replies. */
  lemma GetAllCounts(rows: seq<Comment>)
    ensures forall x :: multiset(TopLevel(rows))[x] == if x.parent.None? then multiset(rows)[x] else 0
    ensures forall i :: 0 <= i < |TopLevel(rows)| ==>
      forall x :: multiset(RepliesOf(rows, TopLevel(rows)[i].id))[x] ==
        if x.parent == Some(TopLevel(rows)[i].id) then multiset(rows)[x] else 0
  {
    var top := TopLevel(rows);
    forall x: Comment ensures multiset(top)[x] == if x.parent.None? then multiset(rows)[x] else 0 {
      TopLevelCounts(rows, x);
    }
    forall i, x: Comment | 0 <= i < |top|
      ensures multiset(RepliesOf(rows, top[i].id))[x] == if x.parent == Some(top[i].id) then multiset(rows)[x] else 0
    {
      RepliesOfCounts(rows, top[i].id, x);
    }
  }

  /** The answer and the per-comment views GetAll builds. */
  lemma GetAllViews(u: UuidCodec, t: Table)
    requires t.available
    ensures var r := GetAllSpec(u, t);
      var vs := Views(u, t.rows, TopLevel(t.rows), false);
      && r.status == StatusOK
      && r.data == ListData(vs)
      && (r.data == Null <==> forall x :: x in t.rows ==> x.parent.Some?)
      && |vs| == |TopLevel(t.rows)|
      && forall i :: 0 <= i < |vs| ==>
           && TopLevel(t.rows)[i] in t.rows && TopLevel(t.rows)[i].parent.None?
           && vs[i].id == u.show(TopLevel(t.rows)[i].id)
           && vs[i].parentId.None?
           && vs[i].repliesCount == |RepliesOf(t.rows, TopLevel(t.rows)[i].id)|
  {
    var top := TopLevel(t.rows);
    if |top| > 0 {
      assert top[0] in top;
    } else {
      forall x | x in t.rows ensures x.parent.Some? {
        assert x.parent.None? ==> x in top;
      }
    }
    forall i | 0 <= i < |top| ensures top[i] in t.rows && top[i].parent.None? {
      assert top[i] in top;
    }
  }

  /** Update checks the id, then the body, then that the comment exists; on a
      bad id the body is never looked at, and on a bad body the table is
      never read. */
  lemma UpdateCheckOrder(u: UuidCodec, t: Table, c: Context, b: Body, t2: Table)
    ensures u.parse(Param(c, "commentID")).None? ==>
      UpdateSpec(u, t, c) == (t, Reply(StatusBadRequest, InvalidCommentMessage, NoData)) &&
      UpdateSpec(u, t, c.(req := c.req.(body := b))).1 == UpdateSpec(u, t, c).1
    ensures u.parse(Param(c, "commentID")).Some? && c.req.body.asMessage.Err? ==>
      UpdateSpec(u, t, c) == (t, Reply(StatusBadRequest, c.req.body.asMessage.error, NoData)) &&
      UpdateSpec(u, t2, c).1 == UpdateSpec(u, t, c).1
    ensures u.parse(Param(c, "commentID")).Some? && c.req.body.asMessage.Ok? && t.available &&
            Find(t.rows, u.parse(Param(c, "commentID")).value).None? ==>
      UpdateSpec(u, t, c) == (t, Reply(StatusNotFound, CommentNotFoundMessage, NoData))
  {
  }

  /** A successful update changes the message of exactly the addressed
      comment (keeping it when the new message is empty) and nothing else:
      every other comment, and every other field, stays as it was. */
  lemma UpdateChangesOnlyMessage(u: UuidCodec, t: Table, c: Context)
    requires UniqueIds(t.rows)
    requires UpdateSpec(u, t, c).1.status == StatusOK
    ensures u.parse(Param(c, "commentID")).Some? && c.req.body.asMessage.Ok?
    ensures var id := u.parse(Param(c, "commentID")).value;
      var m := c.req.body.asMessage.value;
      var t' := UpdateSpec(u, t, c).0;
      && Find(t.rows, id).Some?
      && t'.users == t.users && t'.photos == t.photos && t'.available == t.available
      && |t'.rows| == |t.rows|
      && (forall i :: 0 <= i < |t.rows| && t.rows[i].id != id ==> t'.rows[i] == t.rows[i])
      && (forall i :: 0 <= i < |t.rows| && t.rows[i].id == id ==>
            t'.rows[i] == t.rows[i].(message := if m == "" then t.rows[i].message else m))
    ensures Required(c.req.body) ==>
      var id := u.parse(Param(c, "commentID")).value;
      var t' := UpdateSpec(u, t, c).0;
      forall i :: 0 <= i < |t.rows| && t.rows[i].id == id ==>
        t'.rows[i] == t.rows[i].(message := c.req.body.asMessage.value)
  {
    var id := u.parse(Param(c, "commentID")).value;
    var cm := Find(t.rows, id).value;
    forall i | 0 <= i < |t.rows| && t.rows[i].id == id
      ensures t.rows[i] == cm
    {
      FindUnique(t.rows, t.rows[i]);
    }
  }

  lemma UpdateKeepsValid(u: UuidCodec, t: Table, c: Context)
    requires Valid(t)
    ensures Valid(UpdateSpec(u, t, c).0)
  {
    var r := UpdateSpec(u, t, c);
    if r.1.status == StatusOK {
      var id := u.parse(Param(c, "commentID")).value;
      var cm := Find(t.rows, id).value;
      var y := WithMessage(cm, c.req.body.asMessage.value);
      assert r.0.rows == Replace(t.rows, id, y);
      ReplaceKeeps(t.rows, id, y);
      var rows := r.0.rows;
      forall x | x in rows && x.parent.Some?
        ensures Find(rows, x.parent.value).Some? && Find(rows, x.parent.value).value.photoId == x.photoId
      {
        assert x == y || x in t.rows;
      }
    }
  }

  /** Delete answers 400 for a bad id and 404 for an absent comment, and
      refuses to delete a comment that still has replies. */
  lemma DeleteRejections(u: UuidCodec, t: Table, c: Context)
    ensures u.parse(Param(c, "commentID")).None? ==>
      DeleteSpec(u, t, c) == (t, Reply(StatusBadRequest, InvalidCommentMessage, NoData))
    ensures var id := u.parse(Param(c, "commentID"));
      id.Some? && t.available && Find(t.rows, id.value).None? ==>
        DeleteSpec(u, t, c) == (t, Reply(StatusNotFound, CommentNotFoundMessage, NoData))
    ensures var id := u.parse(Param(c, "commentID"));
      id.Some? && t.available && (exists x :: x in t.rows && x.parent == id) ==>
        DeleteSpec(u, t, c).1.status != StatusOK && DeleteSpec(u, t, c).0 == t
  {
    var id := u.parse(Param(c, "commentID"));
    if id.Some? && t.available && (exists x :: x in t.rows && x.parent == id) {
      var x :| x in t.rows && x.parent == id;
      assert x in RepliesOf(t.rows, id.value);
    }
  }

  /** A successful delete removes exactly the addressed comment: one row
      fewer, and every other comment still there and found as before. */
  lemma DeleteRemovesExactlyOne(u: UuidCodec, t: Table, c: Context)
    requires UniqueIds(t.rows)
    requires DeleteSpec(u, t, c).1.status == StatusOK
    ensures u.parse(Param(c, "commentID")).Some?
    ensures var id := u.parse(Param(c, "commentID")).value;
      var t' := DeleteSpec(u, t, c).0;
      && Find(t.rows, id).Some? && Find(t'.rows, id).None?
      && |t'.rows| == |t.rows| - 1
      && (forall x :: x in t'.rows <==> x in t.rows && x.id != id)
      && (forall k :: k != id ==> Find(t'.rows, k) == Find(t.rows, k))
      && t'.users == t.users && t'.photos == t.photos && t'.available == t.available
  {
    var id := u.parse(Param(c, "commentID")).value;
    RemoveKeeps(t.rows, id);
  }

  lemma DeleteKeepsValid(u: UuidCodec, t: Table, c: Context)
    requires Valid(t)
    ensures Valid(DeleteSpec(u, t, c).0)
  {
    var r := DeleteSpec(u, t, c);
    if r.1.status == StatusOK {
      var id := u.parse(Param(c, "commentID")).value;
      RemoveKeeps(t.rows, id);
      var rows := r.0.rows;
      forall x | x in rows && x.parent.Some?
        ensures Find(rows, x.parent.value).Some? && Find(rows, x.parent.value).value.photoId == x.photoId
      {
        assert x.parent.value == id ==> x in RepliesOf(t.rows, id);
      }
    }
  }

  /** CreateReply settles the parent id and the parent's existence before it
      reads the caller or binds the body: whatever the body and the stored
      keys, a bad parent id is a 400 and an absent parent a 404. */
  lemma ReplyChecksParentFirst(u: UuidCodec, t: Table, c: Context, b: Body, keys: map<string, Json>, freshId: Uuid)
    ensures var c2 := c.(req := c.req.(body := b), keys := keys);
      var pid := u.parse(Param(c, "parentCommentID"));
      && (pid.None? ==>
            CreateReplySpec(u, t, c, freshId) == (t, Reply(StatusBadRequest, InvalidParentMessage, NoData)) &&
            CreateReplySpec(u, t, c2, freshId) == CreateReplySpec(u, t, c, freshId))
      && (pid.Some? && t.available && Find(t.rows, pid.value).None? ==>
            CreateReplySpec(u, t, c, freshId) == (t, Reply(StatusNotFound, ParentNotFoundMessage, NoData)) &&
            CreateReplySpec(u, t, c2, freshId) == CreateReplySpec(u, t, c, freshId))
  {
  }

  /** A stored reply points at its parent, takes the parent's photo, is the
      caller's, and is answered with its parent's id and RepliesCount 0. */
  lemma ReplyInheritsParentPhoto(u: UuidCodec, t: Table, c: Context, freshId: Uuid)
    requires CreateReplySpec(u, t, c, freshId).1.status == StatusCreated
    ensures u.parse(Param(c, "parentCommentID")).Some? && CallerId(c).Some? && c.req.body.asMessage.Ok?
    ensures var pid := u.parse(Param(c, "parentCommentID")).value;
      var r := CreateReplySpec(u, t, c, freshId);
      && Find(t.rows, pid).Some?
      && r.0.rows == t.rows + [Comment(freshId, ParseIgnoringError(u, CallerId(c).value), Find(t.rows, pid).value.photoId,
                                       c.req.body.asMessage.value, Some(pid))]
      && r.1.data.One? && r.1.data.view.parentId == Some(u.show(pid)) && r.1.data.view.repliesCount == 0
  {
  }

  lemma CreateReplyKeepsValid(u: UuidCodec, t: Table, c: Context, freshId: Uuid)
    requires Valid(t)
    ensures Valid(CreateReplySpec(u, t, c, freshId).0)
  {
    var r := CreateReplySpec(u, t, c, freshId);
    if r.1.status == StatusCreated {
      var cm := r.0.rows[|r.0.rows| - 1];
      assert r.0.rows == t.rows + [cm];
      AppendKeepsValid(t, cm);
    }
  }

  /** GetReplies lists exactly the direct replies of the parent, each as
      often as it occurs and each showing that parent's id; an absent parent
      is a 404. */
  lemma GetRepliesListsExactlyReplies(u: UuidCodec, t: Table, c: Context)
    requires u.parse(Param(c, "parentCommentID")).Some? && t.available
    ensures var p := u.parse(Param(c, "parentCommentID")).value;
      var r := GetRepliesSpec(u, t, c);
      && (Find(t.rows, p).None? ==> r == Reply(StatusNotFound, ParentNotFoundMessage, NoData))
      && (Find(t.rows, p).Some? ==>
            var vs := Views(u, t.rows, RepliesOf(t.rows, p), true);
            && r == Reply(StatusOK, RepliesListedMessage, ListData(vs))
            && (forall x :: multiset(RepliesOf(t.rows, p))[x] == if x.parent == Some(p) then multiset(t.rows)[x] else 0)
            && forall i :: 0 <= i < |vs| ==> vs[i].parentId == Some(u.show(p)))
  {
    var p := u.parse(Param(c, "parentCommentID")).value;
    var rs := RepliesOf(t.rows, p);
    forall x: Comment ensures multiset(rs)[x] == if x.parent == Some(p) then multiset(t.rows)[x] else 0 {
      RepliesOfCounts(t.rows, p, x);
    }
    forall i | 0 <= i < |rs| ensures rs[i].parent == Some(p) {
      assert rs[i] in rs;
    }
  }

  /** GetReplies refuses a parent id that does not parse with 400 before it
      reads the table, and answers 500 when the parent lookup fails. */
  lemma GetRepliesRejections(u: UuidCodec, t: Table, c: Context)
    ensures u.parse(Param(c, "parentCommentID")).None? ==>
      GetRepliesSpec(u, t, c) == Reply(StatusBadRequest, InvalidParentMessage, NoData)
    ensures u.parse(Param(c, "parentCommentID")).Some? && !t.available ==>
      GetRepliesSpec(u, t, c) == Reply(StatusInternalServerError, ParentLookupFailedMessage, NoData)
    ensures GetRepliesSpec(u, t, c).status == StatusOK <==>
      u.parse(Param(c, "parentCommentID")).Some? && t.available &&
      Find(t.rows, u.parse(Param(c, "parentCommentID")).value).Some?
  {
  }
}
