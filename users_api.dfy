/**
  The cursor-paged user list (`get_users_cursor` in
  backend/oasst_backend/api/v1/users.py). A cursor is the text of a user's
  UUID, a `$`, and the sort key of that user (username or display name).
  The database queries are parameters.
 */
module UsersApi {
  import opened Wrappers
  import opened Strings
  import opened Uuids

  /** A user as the list returns it. */
  datatype FrontEndUser = FrontEndUser(userId: Uuid, id: String, displayName: String)

  /** The bounds one ordered query receives. */
  datatype UserQuery = UserQuery(
    gteKey: Option<String>, gtId: Option<Uuid>,
    lteKey: Option<String>, ltId: Option<Uuid>,
    apiClientId: Option<Uuid>, searchText: Option<String>, authMethod: Option<String>, maxCount: int)

  datatype Page = Page(prev: Option<String>, next: Option<String>, sortKey: String, order: String, items: seq<FrontEndUser>)

  /** `UUID(...)` raising on a malformed cursor, and the unsupported sort key. */
  datatype UsersError = InvalidUuid | SortKeyUnsupported(message: String)

  /** The position of the first `c` in `s`. */
  function IndexOf(s: String, c: char): (r: Option<nat>)
    ensures r.Some? ==> r.value < |s| && s[r.value] == c && c !in s[..r.value]
    ensures r.None? ==> c !in s
    decreases |s|
  {
    if |s| == 0 then None
    else if s[0] == c then Some(0)
    else match IndexOf(s[1..], c)
      case Some(k) =>
        assert s[..k + 1] == [s[0]] + s[1..][..k];
        Some(k + 1)
      case None => None
  }

  /** `x.split("$", maxsplit=1)` when it yields two parts. */
  function SplitAtFirstDollar(x: String): (r: Option<(String, String)>)
    ensures r.Some? ==> x == r.value.0 + "$" + r.value.1 && '$' !in r.value.0
    ensures r.None? <==> '$' !in x
  {
    match IndexOf(x, '$')
    case Some(k) =>
      assert x == x[..k] + "$" + x[k + 1..];
      Some((x[..k], x[k + 1..]))
    case None => None
  }

  /** `split_cursor`: `(key, id)`, with `UUID(id)` able to raise. */
  function SplitCursor(x: Option<String>): (r: Result<(Option<String>, Option<Uuid>), UsersError>)
    ensures x.None? || x == Some([]) ==> r == Ok((None, None))
    ensures r == Err(InvalidUuid) ==> x.Some? && SplitAtFirstDollar(x.value).Some? && |SplitAtFirstDollar(x.value).value.0| == 36
    ensures r.Ok? && r.value.1.None? && x.Some? && x.value != [] ==> r.value.0 == x
    ensures x.Some? && x.value != [] && SplitAtFirstDollar(x.value).Some? && |SplitAtFirstDollar(x.value).value.0| == 36 ==>
              var (id, k) := SplitAtFirstDollar(x.value).value;
              r == (match ParseUuid(id) case Some(u) => Ok((Some(k), Some(u))) case None => Err(InvalidUuid))
    ensures x.Some? && x.value != [] && (SplitAtFirstDollar(x.value).None? || |SplitAtFirstDollar(x.value).value.0| != 36) ==>
              r == Ok((x, None))
  {
    if x.None? || |x.value| == 0 then Ok((None, None))
    else match SplitAtFirstDollar(x.value)
      case Some((id, k)) =>
        if |id| == 36 then
          match ParseUuid(id)
          case Some(u) => Ok((Some(k), Some(u)))
          case None => Err(InvalidUuid)
        else Ok((x, None))
      case None => Ok((x, None))
  }

  /** The cursor for a user with the given sort key. */
  function CursorText(u: Uuid, key: String): String {
    UuidText(u) + "$" + key
  }

  /** A cursor built from a user splits back into that user's key and id, even when the key holds `$`. */
  lemma SplitCursorText(u: Uuid, key: String)
    ensures SplitCursor(Some(CursorText(u, key))) == Ok((Some(key), Some(u)))
  {
    var x := CursorText(u, key);
    UuidTextHasNoDollar(u);
    ParseUuidText(u);
    var parts := SplitAtFirstDollar(x).value;
    assert parts.0 == UuidText(u) by {
      CutIsUnique(UuidText(u), key, parts.0, parts.1);
    }
  }

  /** Two ways of writing a text as "no `$`, then `$`, then the rest" agree. */
  lemma CutIsUnique(a: String, b: String, c: String, d: String)
    requires a + "$" + b == c + "$" + d
    requires '$' !in a && '$' !in c
    ensures a == c && b == d
  {
    var s := a + "$" + b;
    assert forall i :: 0 <= i < |a| ==> s[i] == a[i];
    assert forall i :: 0 <= i < |c| ==> s[i] == c[i];
    assert s[|a|] == '$' && s[|c|] == '$';
    assert a == s[..|a|] && c == s[..|c|];
    assert b == s[|a| + 1..] && d == s[|c| + 1..];
  }

  /** The sort key of a user under each supported ordering. */
  function SortKeyOf(sortKey: String, u: FrontEndUser): String {
    if sortKey == "username" then u.id else u.displayName
  }

  /** The `prev` and `next` cursors of a page: from its first and its last item. */
  function PageCursors(sortKey: String, items: seq<FrontEndUser>): (r: (Option<String>, Option<String>))
    ensures |items| == 0 <==> r.0.None? && r.1.None?
    ensures |items| > 0 ==> r.0 == Some(CursorText(items[0].userId, SortKeyOf(sortKey, items[0])))
                            && r.1 == Some(CursorText(Last(items).userId, SortKeyOf(sortKey, Last(items))))
  {
    if |items| > 0 then
      (Some(UuidText(items[0].userId) + "$" + SortKeyOf(sortKey, items[0])),
       Some(UuidText(Last(items).userId) + "$" + SortKeyOf(sortKey, Last(items))))
    else (None, None)
  }

  /** The query bounds from the two cursors: `lt` gives the upper bounds and `gt` the lower ones. */
  function Bounds(lt: Option<String>, gt: Option<String>, apiClientId: Option<Uuid>, searchText: Option<String>,
                  authMethod: Option<String>, maxCount: int): (r: Result<UserQuery, UsersError>)
    ensures r.Ok? <==> SplitCursor(lt).Ok? && SplitCursor(gt).Ok?
    ensures r.Ok? ==> (r.value.lteKey, r.value.ltId) == SplitCursor(lt).value
                      && (r.value.gteKey, r.value.gtId) == SplitCursor(gt).value
  {
    match SplitCursor(lt)
    case Err(e) => Err(e)
    case Ok((lteKey, ltId)) =>
      match SplitCursor(gt)
      case Err(e) => Err(e)
      case Ok((gteKey, gtId)) =>
        Ok(UserQuery(gteKey, gtId, lteKey, ltId, apiClientId, searchText, authMethod, maxCount))
  }

  /**
    `get_users_cursor`: dispatch on the sort key, split both cursors, run the
    ordered query, and build the page with its `prev`/`next` cursors.
   */
  function GetUsersCursor(lt: Option<String>, gt: Option<String>, sortKey: String, maxCount: int,
                          apiClientId: Option<Uuid>, searchText: Option<String>, authMethod: Option<String>,
                          byUsername: UserQuery -> seq<FrontEndUser>,
                          byDisplayName: UserQuery -> seq<FrontEndUser>): (r: Result<Page, UsersError>)
    ensures sortKey != "username" && sortKey != "display_name" ==>
              r == Err(SortKeyUnsupported("Unsupported sort key: '" + sortKey + "'"))
    ensures r.Ok? ==> r.value.sortKey == sortKey && r.value.order == "asc"
                      && (r.value.prev, r.value.next) == PageCursors(sortKey, r.value.items)
    ensures r.Ok? ==> var q := Bounds(lt, gt, apiClientId, searchText, authMethod, maxCount);
                      q.Ok? && r.value.items == (if sortKey == "username" then byUsername(q.value) else byDisplayName(q.value))
    ensures (sortKey == "username" || sortKey == "display_name") ==>
              (r.Ok? <==> Bounds(lt, gt, apiClientId, searchText, authMethod, maxCount).Ok?)
  {
    if sortKey != "username" && sortKey != "display_name" then
      Err(SortKeyUnsupported("Unsupported sort key: '" + sortKey + "'"))
    else
      match Bounds(lt, gt, apiClientId, searchText, authMethod, maxCount)
      case Err(e) => Err(e)
      case Ok(q) =>
        var items := if sortKey == "username" then byUsername(q) else byDisplayName(q);
        var cursors := PageCursors(sortKey, items);
        Ok(Page(cursors.0, cursors.1, sortKey, "asc", items))
  }

  /**
    Passing a page's `next` cursor back as `gt` asks for users after the
    last one shown: the lower bounds are that user's key and id.
   */
  lemma NextCursorResumesAfterLast(page: Page, sortKey: String, apiClientId: Option<Uuid>, searchText: Option<String>,
                                   authMethod: Option<String>, maxCount: int)
    requires |page.items| > 0
    requires (page.prev, page.next) == PageCursors(sortKey, page.items)
    ensures var q := Bounds(None, page.next, apiClientId, searchText, authMethod, maxCount);
            q.Ok? && q.value.gteKey == Some(SortKeyOf(sortKey, Last(page.items))) && q.value.gtId == Some(Last(page.items).userId)
            && q.value.lteKey.None? && q.value.ltId.None?
  {
    SplitCursorText(Last(page.items).userId, SortKeyOf(sortKey, Last(page.items)));
  }

  /** Passing a page's `prev` cursor back as `lt` asks for users up to the first one shown. */
  lemma PrevCursorEndsAtFirst(page: Page, sortKey: String, apiClientId: Option<Uuid>, searchText: Option<String>,
                              authMethod: Option<String>, maxCount: int)
    requires |page.items| > 0
    requires (page.prev, page.next) == PageCursors(sortKey, page.items)
    ensures var q := Bounds(page.prev, None, apiClientId, searchText, authMethod, maxCount);
            q.Ok? && q.value.lteKey == Some(SortKeyOf(sortKey, page.items[0])) && q.value.ltId == Some(page.items[0].userId)
            && q.value.gteKey.None? && q.value.gtId.None?
  {
    SplitCursorText(page.items[0].userId, SortKeyOf(sortKey, page.items[0]));
  }
}
