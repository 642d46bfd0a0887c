/**
 * The posts service: how a listing query becomes the repository's find options,
 * and the checked insert, update and delete of posts over a table keyed by id.
 */
module Posts {
  import opened Wrappers
  import CommaList

  // ---------------------------------------------------------------------------
  // Listing
  // ---------------------------------------------------------------------------

  /** A JavaScript number as far as the listing arithmetic needs it:
      `undefined - 1` is not a number. */
  datatype Number = Finite(n: int) | NaN

  datatype Direction = ASC | DESC

  /** The listing query; absent fields are `None`. */
  datatype ListQuery = ListQuery(
    limit: Option<int>,
    page: Option<int>,
    select: Option<string>,
    orderBy: Option<string>)

  /** What `list` hands to the repository's `findAndCount`. */
  datatype FindOptions = FindOptions(
    skip: Option<Number>,
    take: Option<int>,
    select: seq<string>,
    order: Direction)

  /** The columns listed when the query names none. */
  const DefaultColumns: seq<string> := ["id", "title", "path", "slug", "createdAt", "updatedAt"]

  /** JavaScript truthiness of an optional number: absent and zero are false. */
  predicate Truthy(x: Option<int>)
  {
    x.Some? && x.value != 0
  }

  /** The projected columns: the comma-separated pieces of a non-empty `select`,
      otherwise the six default columns. */
  function Columns(select: Option<string>): (cols: seq<string>)
    ensures select.None? || select == Some("") ==> cols == DefaultColumns
    ensures select.Some? && select.value != "" ==>
      && |cols| >= 1
      && (forall i :: 0 <= i < |cols| ==> ',' !in cols[i])
      && CommaList.Join(cols) == select.value
  {
    if select.Some? && select.value != "" then CommaList.Split(select.value) else DefaultColumns
  }

  /** `(page - 1) * limit`, which is not a number when the page is absent. */
  function Offset(page: Option<int>, limit: int): Number
  {
    if page.Some? then Finite((page.value - 1) * limit) else NaN
  }

  /** The find options of a listing query. */
  function List(q: ListQuery): (o: FindOptions)
    ensures !Truthy(q.limit) ==> o.skip.None? && o.take.None?
    ensures Truthy(q.limit) ==> o.take == q.limit
    ensures Truthy(q.limit) && q.limit.value > 1 ==> o.skip == Some(Offset(q.page, q.limit.value))
    ensures Truthy(q.limit) && q.limit.value <= 1 ==> o.skip == Some(Finite(q.limit.value))
    ensures o.order == ASC <==> q.orderBy == Some("ASC")
    ensures o.select == Columns(q.select)
  {
    FindOptions(
      if Truthy(q.limit) then Some(if q.limit.value > 1 then Offset(q.page, q.limit.value) else Finite(q.limit.value)) else None,
      if Truthy(q.limit) then q.limit else None,
      Columns(q.select),
      if q.orderBy == Some("ASC") then ASC else DESC)
  }

  /** The page changes the find options exactly when the limit exceeds one:
      replacing the page, present or absent, by another changes the options if
      and only if the two pages differ and the limit is above one. */
  lemma PageMattersOnlyAboveOne(q: ListQuery, other: Option<int>)
    ensures List(q) == List(q.(page := other)) <==>
              q.page == other || !(Truthy(q.limit) && q.limit.value > 1)
  {
  }

  // ---------------------------------------------------------------------------
  // The posts table
  // ---------------------------------------------------------------------------

  /** A stored post; its id is the key it is stored under. */
  datatype Post = Post(title: string, path: string, slug: string, text: string)

  /** The create/update payload: the post fields and an optional id. */
  datatype PostDto = PostDto(id: Option<nat>, post: Post)

  /** An error raised to the caller: an HTTP exception with its status and
      message, or the repository's refusal of an update without an id. */
  datatype PostError = HttpException(status: int, message: string) | EmptyCriteria

  const BadRequest := 400
  const AlreadyExist := HttpException(BadRequest, "Already Exist")
  const CategoriesNotFound := HttpException(BadRequest, "Categories Not Found")

  /** No two rows share a path. */
  ghost predicate UniquePaths(rows: map<nat, Post>)
  {
    forall i, j :: i in rows && j in rows && rows[i].path == rows[j].path ==> i == j
  }

  /** The service over its repository: `rows` is the table, `nextId` the
      auto-increment counter the database draws fresh ids from. */
  class PostsService {
    var rows: map<nat, Post>
    var nextId: nat

    /** Every id in use lies below the auto-increment counter. */
    ghost predicate Valid()
      reads this
    {
      forall id :: id in rows ==> id < nextId
    }

    /** Some row has this path. */
    predicate HasPath(path: string)
      reads this
    {
      exists id :: id in rows && rows[id].path == path
    }

    constructor ()
      ensures Valid()
      ensures rows == map[] && nextId == 0
    {
      rows := map[];
      nextId := 0;
    }

    /** `findOne({ path })`: a row with this path, as its id and post, if any. */
    method FindOne(path: string) returns (r: Option<(nat, Post)>)
      ensures r.Some? <==> HasPath(path)
      ensures r.Some? ==> r.value.0 in rows && rows[r.value.0] == r.value.1 && r.value.1.path == path
    {
      if id :| id in rows && rows[id].path == path {
        r := Some((id, rows[id]));
      } else {
        r := None;
      }
    }

    /** `getNum`: the number of posts. */
    method GetNum() returns (n: nat)
      ensures n == |rows.Keys|
    {
      n := |rows.Keys|;
    }

    /** The repository's `save`: stores the post under the given id, or under
        a fresh one drawn from the counter, and answers the id used. */
    method Save(dto: PostDto) returns (id: nat)
      requires Valid()
      modifies this
      ensures Valid()
      ensures rows == old(rows)[id := dto.post]
      ensures dto.id.Some? ==> id == dto.id.value
      ensures dto.id.None? ==> id !in old(rows)
    {
      if dto.id.Some? {
        id := dto.id.value;
        if nextId <= id {
          nextId := id + 1;
        }
      } else {
        id := nextId;
        nextId := nextId + 1;
      }
      rows := rows[id := dto.post];
    }

    /** `send`: refuses a path already stored, then a slug the category check
        rejects, and only otherwise saves the post. A refused call changes nothing;
        a saved one adds or replaces exactly the row it answers, so a table with
        unique paths keeps them unique. */
    method Send(dto: PostDto, categoryExists: string -> bool) returns (r: Result<nat, PostError>)
      requires Valid()
      modifies this
      ensures Valid()
      ensures old(HasPath(dto.post.path)) ==>
        r == Err(AlreadyExist) && rows == old(rows) && nextId == old(nextId)
      ensures !old(HasPath(dto.post.path)) && !categoryExists(dto.post.slug) ==>
        r == Err(CategoriesNotFound) && rows == old(rows) && nextId == old(nextId)
      ensures !old(HasPath(dto.post.path)) && categoryExists(dto.post.slug) ==>
        && r.Ok?
        && rows == old(rows)[r.value := dto.post]
        && (dto.id.Some? ==> r.value == dto.id.value)
        && (dto.id.None? ==> r.value !in old(rows) && |rows| == |old(rows)| + 1)
      ensures UniquePaths(old(rows)) ==> UniquePaths(rows)
    {
      var found := FindOne(dto.post.path);
      if found.Some? {
        r := Err(AlreadyExist);
      } else if !categoryExists(dto.post.slug) {
        r := Err(CategoriesNotFound);
      } else {
        ghost var before := rows;
        var id := Save(dto);
        r := Ok(id);
        forall i, j | i in rows && j in rows && rows[i].path == rows[j].path && UniquePaths(before)
          ensures i == j
        {
          if i != id && j != id {
            assert before[i] == rows[i] && before[j] == rows[j];
          }
        }
      }
    }

    /** `update(data.id, data)`: replaces the fields of the row with that id and
        answers the number of rows affected; an unknown id affects none, and an
        absent id is refused. Paths are not checked. */
    method Update(dto: PostDto) returns (r: Result<nat, PostError>)
      requires Valid()
      modifies this
      ensures Valid() && nextId == old(nextId)
      ensures dto.id.None? ==> r == Err(EmptyCriteria) && rows == old(rows)
      ensures dto.id.Some? && dto.id.value in old(rows) ==>
        r == Ok(1) && rows == old(rows)[dto.id.value := dto.post]
      ensures dto.id.Some? && dto.id.value !in old(rows) ==> r == Ok(0) && rows == old(rows)
    {
      if dto.id.None? {
        r := Err(EmptyCriteria);
      } else if dto.id.value in rows {
        rows := rows[dto.id.value := dto.post];
        r := Ok(1);
      } else {
        r := Ok(0);
      }
    }

    /** `del(id)`: removes the row with that id, if any, and answers the number
        of rows affected. */
    method Del(id: nat) returns (affected: nat)
      requires Valid()
      modifies this
      ensures Valid() && nextId == old(nextId)
      ensures rows == old(rows) - {id}
      ensures affected == if id in old(rows) then 1 else 0
    {
      affected := if id in rows then 1 else 0;
      rows := rows - {id};
    }
  }

  /** An update is not path-checked: writing over one row a post whose path
      another row holds leaves two rows with the same path. */
  lemma UpdateMayDuplicatePath(rows: map<nat, Post>, i: nat, j: nat, p: Post)
    requires i in rows && j in rows && i != j && p.path == rows[j].path
    ensures !UniquePaths(rows[i := p])
  {
    var after := rows[i := p];
    assert after[i].path == after[j].path;
  }
}
