/** The data shapes the backend exchanges, the session kept in the browser's
    key-value storage, and the two helpers that wrap every REST call
    (src/lib/api.ts). The calls themselves are I/O: each one is a `Response`
    handed to the operation that makes it. */
module Api {
  import opened Common

  datatype User = User(id: string, email: string, firstname: string, lastname: string,
                       roles: Option<seq<string>>)

  /** A catalogue entry. Prices and stock are whole numbers in this model. */
  datatype Book = Book(id: string, title: string, price: int, description: string,
                       quantity: Option<int>, author: string, imageUrl: string, tags: seq<string>)

  /** The owner of an order: the populated `{ _id, email }` record, or a bare id. */
  datatype Owner = OwnerRef(id: string, email: string) | OwnerId(rawId: string)

  datatype OrderedBook = OrderedBook(id: string, title: string, price: int)

  /** An order line; `book` is None when the book no longer exists. */
  datatype OrderItem = OrderItem(book: Option<OrderedBook>, quantity: int, id: string)

  datatype Order = Order(id: string, owner: Owner, items: seq<OrderItem>, totalCost: int, status: string)

  /** The JSON body of `POST /auth/register`, field by field. */
  datatype Registration = Registration(email: string, password: string, firstname: string, lastname: string)

  /** The order statuses the pages know about. */
  const PendingPayment: string := "PENDING PAYMENT"
  const Paid: string := "PAID"
  const Shipped: string := "SHIPPED"
  const Delivered: string := "DELIVERED"
  const Cancelled: string := "CANCELLED"

  const OrderStatuses: set<string> := {PendingPayment, Paid, Shipped, Delivered, Cancelled}

  /** `roles?.includes('ADMIN')`: false when the roles are missing. */
  predicate HasAdminRole(roles: Option<seq<string>>)
  {
    roles.Some? && "ADMIN" in roles.value
  }

  // ---------------------------------------------------------------------------
  // The session store: browser storage as a map from keys to stored values.
  // A profile is kept as the record itself (serialising and parsing it again
  // gives back the same record).

  datatype Stored = Text(text: string) | Json(user: User)

  type Storage = map<string, Stored>

  const AccessTokenKey: string := "accessToken"
  const RefreshTokenKey: string := "refreshToken"
  const UserKey: string := "user"

  /** The keys a logout erases. */
  const SessionKeys: set<string> := {AccessTokenKey, RefreshTokenKey, UserKey}

  /** `localStorage.getItem(key)` for a key that holds text. */
  function TextAt(s: Storage, key: string): (r: Option<string>)
    ensures r.Some? <==> key in s && s[key].Text?
    ensures r.Some? ==> s[key] == Text(r.value)
  {
    if key in s && s[key].Text? then Some(s[key].text) else None
  }

  /** `getToken()`. */
  function Token(s: Storage): Option<string>
  {
    TextAt(s, AccessTokenKey)
  }

  /** `getRefreshToken()`. */
  function RefreshToken(s: Storage): Option<string>
  {
    TextAt(s, RefreshTokenKey)
  }

  /** `getStoredUser()`: the cached profile, or None when there is none. */
  function StoredUser(s: Storage): Option<User>
  {
    if UserKey in s && s[UserKey].Json? then Some(s[UserKey].user) else None
  }

  /** True when `getStoredUser()` throws instead of answering: the user key holds
      non-empty text that `JSON.parse` rejects. Empty text is falsy and reads as
      no profile. */
  predicate StoredUserThrows(s: Storage)
  {
    UserKey in s && s[UserKey].Text? && s[UserKey].text != ""
  }

  /** True when `t` and `s` agree on every key outside `keys`. */
  ghost predicate SameOutside(s: Storage, t: Storage, keys: set<string>)
  {
    forall k :: k !in keys ==> (k in s <==> k in t) && (k in s ==> s[k] == t[k])
  }

  /** `setTokens(access, refresh)`: the two tokens read back as written, the cached
      profile and every other key are left as they were. */
  function WithTokens(s: Storage, access: string, refresh: string): (t: Storage)
    ensures Token(t) == Some(access) && RefreshToken(t) == Some(refresh)
    ensures StoredUser(t) == StoredUser(s) && (StoredUserThrows(t) <==> StoredUserThrows(s))
    ensures SameOutside(s, t, {AccessTokenKey, RefreshTokenKey})
  {
    s[AccessTokenKey := Text(access)][RefreshTokenKey := Text(refresh)]
  }

  /** `clearTokens()`: exactly the three session keys are gone, all others stay. */
  function WithoutSession(s: Storage): (t: Storage)
    ensures Token(t) == None && RefreshToken(t) == None && StoredUser(t) == None && !StoredUserThrows(t)
    ensures t.Keys == s.Keys - SessionKeys
    ensures SameOutside(s, t, SessionKeys)
  {
    s - SessionKeys
  }

  /** `setStoredUser(u)`: the profile reads back as `u`; the tokens and every
      other key are left as they were. */
  function WithStoredUser(s: Storage, u: User): (t: Storage)
    ensures StoredUser(t) == Some(u) && !StoredUserThrows(t)
    ensures Token(t) == Token(s) && RefreshToken(t) == RefreshToken(s)
    ensures SameOutside(s, t, {UserKey})
  {
    s[UserKey := Json(u)]
  }

  /** `setStoredUser(undefined)`: `JSON.stringify(undefined)` is `undefined`,
      which `setItem` stores as the text "undefined"; no profile reads back and
      `getStoredUser()` throws from then on. */
  function WithUndefinedUser(s: Storage): (t: Storage)
    ensures TextAt(t, UserKey) == Some("undefined")
    ensures StoredUser(t) == None && StoredUserThrows(t)
    ensures Token(t) == Token(s) && RefreshToken(t) == RefreshToken(s)
    ensures SameOutside(s, t, {UserKey})
  {
    s[UserKey := Text("undefined")]
  }

  /** `setStoredUser(u)` for a profile reply whose `data` may be missing: a
      profile reads back as itself, a missing one leaves unreadable text. */
  function WithProfile(s: Storage, u: Option<User>): (t: Storage)
    ensures StoredUser(t) == u
    ensures StoredUserThrows(t) <==> u.None?
    ensures Token(t) == Token(s) && RefreshToken(t) == RefreshToken(s)
    ensures SameOutside(s, t, {UserKey})
  {
    if u.Some? then WithStoredUser(s, u.value) else WithUndefinedUser(s)
  }

  /** Writing the tokens twice keeps only the second pair. */
  lemma SetTokensOverwrites(s: Storage, a1: string, r1: string, a2: string, r2: string)
    ensures WithTokens(WithTokens(s, a1, r1), a2, r2) == WithTokens(s, a2, r2)
  {
  }

  /** Clearing the session twice is the same as clearing it once. */
  lemma ClearTokensIdempotent(s: Storage)
    ensures WithoutSession(WithoutSession(s)) == WithoutSession(s)
  {
  }

  /** `authHeaders()`: a bearer header exactly when a non-empty token is stored. */
  function AuthHeaders(s: Storage): (h: map<string, string>)
    ensures "Authorization" in h <==> Token(s).Some? && Token(s).value != ""
    ensures "Authorization" in h ==> h["Authorization"] == "Bearer " + Token(s).value
    ensures h.Keys <= {"Authorization"}
  {
    match Token(s)
    case Some(token) => if token != "" then map["Authorization" := "Bearer " + token] else map[]
    case None => map[]
  }

  /** After a login the next request carries the new access token; after a logout it carries none. */
  lemma AuthHeadersFollowSession(s: Storage, access: string, refresh: string)
    ensures access != "" ==> AuthHeaders(WithTokens(s, access, refresh)) == map["Authorization" := "Bearer " + access]
    ensures access == "" ==> AuthHeaders(WithTokens(s, access, refresh)) == map[]
    ensures AuthHeaders(WithoutSession(s)) == map[]
  {
  }

  /** An HTTP reply: its `ok` flag, the decoded JSON body and that body's `message` field. */
  datatype HttpReply<T> = HttpReply(ok: bool, body: T, message: string)

  const DefaultError: string := "An error occurred"

  /** `handleResponse(response)`: the body when the reply is ok, otherwise an error
      carrying the body's message, or the default text when it has none. */
  function HandleResponse<T>(reply: HttpReply<T>): (r: Response<T>)
    ensures r.Ok? <==> reply.ok
    ensures r.Ok? ==> r.data == reply.body
    ensures r.Failed? ==> r.message != ""
    ensures r.Failed? && reply.message != "" ==> r.message == reply.message
    ensures r.Failed? && reply.message == "" ==> r.message == DefaultError
  {
    if reply.ok then Ok(reply.body) else Failed(OrElse(reply.message, DefaultError))
  }

  // ---------------------------------------------------------------------------
  // The multipart body of `booksApi.create` and `booksApi.update`.

  /** A file picked in a form; its contents are not modelled. */
  datatype ImageFile = ImageFile(name: string)

  datatype FormValue = TextValue(text: string) | FileValue(file: ImageFile)

  datatype FormEntry = FormEntry(name: string, value: FormValue)

  /** `formData.get(name)`: the value of the first entry with that name. */
  function FormGet(entries: seq<FormEntry>, name: string): (r: Option<FormValue>)
    ensures r.None? <==> forall i :: 0 <= i < |entries| ==> entries[i].name != name
    ensures r.Some? ==> FormEntry(name, r.value) in entries
  {
    if entries == [] then None
    else if entries[0].name == name then Some(entries[0].value)
    else FormGet(entries[1..], name)
  }

  /** The lookup finds the entry at `i` when no earlier entry has its name. */
  lemma {:induction false} FormGetAt(entries: seq<FormEntry>, i: nat, name: string)
    requires i < |entries| && entries[i].name == name
    requires forall j :: 0 <= j < i ==> entries[j].name != name
    ensures FormGet(entries, name) == Some(entries[i].value)
  {
    if i > 0 {
      FormGetAt(entries[1..], i - 1, name);
    }
  }

  /** Looking a name up in appended entries finds it in the first part when it is there. */
  lemma {:induction false} FormGetAppend(a: seq<FormEntry>, b: seq<FormEntry>, name: string)
    ensures FormGet(a + b, name) == if FormGet(a, name).Some? then FormGet(a, name) else FormGet(b, name)
  {
    if a == [] {
      assert a + b == b;
    } else {
      assert (a + b)[0] == a[0] && (a + b)[1..] == a[1..] + b;
      FormGetAppend(a[1..], b, name);
    }
  }

  /** A request to the book endpoints: `create(formData)` or `update(id, formData)`. */
  datatype BookCall = CreateBook(form: seq<FormEntry>) | UpdateBook(id: string, form: seq<FormEntry>)

  /** The browser's `FormData`, filled by successive `append` calls. */
  class FormData {
    var entries: seq<FormEntry>

    constructor ()
      ensures entries == []
    {
      entries := [];
    }

    method Append(name: string, value: FormValue)
      modifies this
      ensures entries == old(entries) + [FormEntry(name, value)]
    {
      entries := entries + [FormEntry(name, value)];
    }
  }

  /** The browser storage shared by every page; the session functions above
      specify each of its operations. */
  class TokenStore {
    var items: Storage

    constructor (initial: Storage)
      ensures items == initial
    {
      items := initial;
    }

    method SetTokens(access: string, refresh: string)
      modifies this
      ensures items == WithTokens(old(items), access, refresh)
    {
      items := items[AccessTokenKey := Text(access)];
      items := items[RefreshTokenKey := Text(refresh)];
    }

    method ClearTokens()
      modifies this
      ensures items == WithoutSession(old(items))
    {
      items := items - {AccessTokenKey};
      items := items - {RefreshTokenKey};
      items := items - {UserKey};
    }

    method SetStoredUser(u: Option<User>)
      modifies this
      ensures items == WithProfile(old(items), u)
    {
      if u.Some? {
        items := items[UserKey := Json(u.value)];
      } else {
        items := items[UserKey := Text("undefined")];
      }
    }
  }
}
