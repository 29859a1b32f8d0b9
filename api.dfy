/** The HTTP client wrapper (src/services/api.ts): authentication headers
    built from the stored token, the request sent, and the mapping of the
    response status to a value, `undefined` (401) or a thrown error.
    Browser-local storage is a map; the page location is a string field;
    `fetch` is a function from the request sent to what comes back. */
module Api {
  import opened Wrappers
  import opened Text
  import opened Domain

  const ApiBaseUrl := "http://localhost:8000"
  const TokenKey := "access_token"
  const ContentType := "Content-Type"
  const Authorization := "Authorization"

  type Storage = map<string, string>
  type Headers = map<string, string>

  /** `localStorage.getItem('access_token')` is truthy: present and not ''. */
  predicate HasToken(storage: Storage) {
    TokenKey in storage && storage[TokenKey] != ""
  }

  /** `getAuthHeaders()`. */
  function AuthHeaders(storage: Storage): (h: Headers)
    ensures ContentType in h && h[ContentType] == "application/json"
    ensures Authorization in h <==> HasToken(storage)
    ensures Authorization in h ==> h[Authorization] == "Bearer " + storage[TokenKey]
    ensures h.Keys <= {ContentType, Authorization}
  {
    var base := map[ContentType := "application/json"];
    if HasToken(storage) then base[Authorization := "Bearer " + storage[TokenKey]] else base
  }

  /** A request body: the value whose `JSON.stringify` is sent. */
  datatype Payload =
    | NoBody
    | NewPatientJson(patient: NewPatient)
    | ChatRequestJson(request: ChatRequest)
    | GeneralMessageJson(message: string)

  /** The `RequestInit` a caller passes; `headers` are the caller's own. */
  datatype RequestOptions = RequestOptions(verb: string, body: Payload, headers: Headers)

  const Get: RequestOptions := RequestOptions("GET", NoBody, map[])

  function Post(body: Payload): RequestOptions {
    RequestOptions("POST", body, map[])
  }

  datatype Request = Request(url: string, verb: string, body: Payload, headers: Headers)

  /** `{ ...getAuthHeaders(), ...options.headers }`: the caller's headers win. */
  function MergeHeaders(storage: Storage, custom: Headers): (h: Headers)
    ensures h.Keys == AuthHeaders(storage).Keys + custom.Keys
    ensures forall k :: k in custom ==> h[k] == custom[k]
    ensures forall k :: k in AuthHeaders(storage) && k !in custom ==> h[k] == AuthHeaders(storage)[k]
  {
    AuthHeaders(storage) + custom
  }

  /** The request `apiRequest(endpoint, options)` hands to `fetch`. */
  function BuildRequest(storage: Storage, endpoint: string, options: RequestOptions): (r: Request)
    ensures r.url == ApiBaseUrl + endpoint && r.verb == options.verb && r.body == options.body
    ensures r.headers == MergeHeaders(storage, options.headers)
  {
    Request(ApiBaseUrl + endpoint, options.verb, options.body, MergeHeaders(storage, options.headers))
  }

  /** What `fetch` yields: a rejected promise or a response. */
  datatype Fetched<T> = NetworkError(reason: string) | Response(status: int, statusText: string, body: T)

  /** `response.ok`. */
  predicate IsOk(status: int) {
    200 <= status <= 299
  }

  /** How an `apiRequest` call ends: the parsed body, `undefined`, or an
      exception with its message. */
  datatype ApiResult<T> = Returned(value: T) | Undefined | Thrown(message: string)

  /** How a thunk whose body is one `apiRequest` settles: `undefined` is a
      fulfilled thunk without payload, a thrown error a rejection. */
  function SettleWith<T>(r: ApiResult<T>): Settled<Option<T>> {
    match r
    case Returned(v) => Fulfilled(Some(v))
    case Undefined => Fulfilled(None)
    case Thrown(m) => Rejected(m)
  }

  /** The characters `encodeURIComponent` leaves as they are. */
  predicate Unreserved(c: char) {
    ('A' <= c <= 'Z') || ('a' <= c <= 'z') || ('0' <= c <= '9')
    || c == '-' || c == '_' || c == '.' || c == '!' || c == '~' || c == '*' || c == '\'' || c == '(' || c == ')'
  }

  function HexDigit(d: nat): (c: char)
    requires d < 16
  {
    "0123456789ABCDEF"[d]
  }

  /** The UTF-8 bytes of one character. */
  function Utf8(c: char): (bytes: seq<nat>)
    ensures 1 <= |bytes| <= 4 && forall i :: 0 <= i < |bytes| ==> bytes[i] < 256
  {
    var n := c as int;
    if n < 0x80 then [n]
    else if n < 0x800 then [0xC0 + n / 0x40, 0x80 + n % 0x40]
    else if n < 0x10000 then [0xE0 + n / 0x1000, 0x80 + (n / 0x40) % 0x40, 0x80 + n % 0x40]
    else [0xF0 + n / 0x40000, 0x80 + (n / 0x1000) % 0x40, 0x80 + (n / 0x40) % 0x40, 0x80 + n % 0x40]
  }

  /** Reads back the code point of a one- to four-byte UTF-8 sequence from
      its lead byte's payload and six bits per continuation byte. */
  function Utf8Decode(bytes: seq<nat>): int
    requires 1 <= |bytes| <= 4
  {
    var lead: int := if |bytes| == 1 then bytes[0]
                     else if |bytes| == 2 then bytes[0] as int - 0xC0
                     else if |bytes| == 3 then bytes[0] as int - 0xE0
                     else bytes[0] as int - 0xF0;
    WithSixBits(lead, Continuations(bytes[1..]))
  }

  /** The six payload bits of each continuation byte. */
  function Continuations(bytes: seq<nat>): seq<int> {
    if bytes == [] then [] else [bytes[0] as int - 0x80] + Continuations(bytes[1..])
  }

  function WithSixBits(acc: int, sixes: seq<int>): int
    decreases |sixes|
  {
    if sixes == [] then acc else WithSixBits(acc * 0x40 + sixes[0], sixes[1..])
  }

  /** Decoding the bytes gives back the character; the lead byte says how
      many bytes follow, and every continuation byte is `10xxxxxx`. */
  lemma Utf8RoundTrip(c: char)
    ensures Utf8Decode(Utf8(c)) == c as int
    ensures |Utf8(c)| == 1 <==> (c as int) < 0x80
    ensures |Utf8(c)| == 1 ==> Utf8(c)[0] < 0x80
    ensures |Utf8(c)| == 2 ==> 0xC0 <= Utf8(c)[0] < 0xE0
    ensures |Utf8(c)| == 3 ==> 0xE0 <= Utf8(c)[0] < 0xF0
    ensures |Utf8(c)| == 4 ==> 0xF0 <= Utf8(c)[0] < 0xF8
    ensures forall i :: 1 <= i < |Utf8(c)| ==> 0x80 <= Utf8(c)[i] < 0xC0
  {
    var n := c as int;
    if n < 0x80 {
      assert Utf8(c) == [n];
    } else if n < 0x800 {
      TwoBytes(n, Utf8(c));
    } else if n < 0x10000 {
      ThreeBytes(n, Utf8(c));
    } else {
      FourBytes(n, Utf8(c));
    }
  }

  lemma {:induction false} ContinuationsAt(bytes: seq<nat>)
    ensures |Continuations(bytes)| == |bytes|
    ensures forall i :: 0 <= i < |bytes| ==> Continuations(bytes)[i] == bytes[i] as int - 0x80
  {
    if bytes != [] {
      ContinuationsAt(bytes[1..]);
    }
  }

  lemma TwoBytes(n: int, b: seq<nat>)
    requires 0x80 <= n < 0x800 && b == [0xC0 + n / 0x40, 0x80 + n % 0x40]
    ensures Utf8Decode(b) == n && 0xC0 <= b[0] < 0xE0 && 0x80 <= b[1] < 0xC0
  {
    ContinuationsAt(b[1..]);
    var sixes := [n % 0x40];
    assert sixes[1..] == [];
    assert WithSixBits(n / 0x40, sixes) == WithSixBits(n / 0x40 * 0x40 + n % 0x40, []);
  }

  lemma ThreeBytes(n: int, b: seq<nat>)
    requires 0x800 <= n < 0x10000 && b == [0xE0 + n / 0x1000, 0x80 + (n / 0x40) % 0x40, 0x80 + n % 0x40]
    ensures Utf8Decode(b) == n && 0xE0 <= b[0] < 0xF0 && 0x80 <= b[1] < 0xC0 && 0x80 <= b[2] < 0xC0
  {
    var sixes := [(n / 0x40) % 0x40, n % 0x40];
    ContinuationsAt(b[1..]);
    assert Continuations(b[1..]) == sixes;
    assert sixes[1..] == [n % 0x40] && sixes[1..][1..] == [];
    assert WithSixBits(n / 0x1000, sixes) == WithSixBits(n / 0x40, [n % 0x40]);
    assert WithSixBits(n / 0x40, [n % 0x40]) == WithSixBits(n / 0x40 * 0x40 + n % 0x40, []);
    assert (n / 0x1000) * 0x40 + (n / 0x40) % 0x40 == n / 0x40;
  }

  lemma FourBytes(n: int, b: seq<nat>)
    requires 0x10000 <= n < 0x110000
    requires b == [0xF0 + n / 0x40000, 0x80 + (n / 0x1000) % 0x40, 0x80 + (n / 0x40) % 0x40, 0x80 + n % 0x40]
    ensures Utf8Decode(b) == n && 0xF0 <= b[0] < 0xF8
    ensures 0x80 <= b[1] < 0xC0 && 0x80 <= b[2] < 0xC0 && 0x80 <= b[3] < 0xC0
  {
    var sixes := [(n / 0x1000) % 0x40, (n / 0x40) % 0x40, n % 0x40];
    ContinuationsAt(b[1..]);
    assert Continuations(b[1..]) == sixes;
    assert sixes[1..] == [(n / 0x40) % 0x40, n % 0x40];
    assert sixes[1..][1..] == [n % 0x40] && sixes[1..][1..][1..] == [];
    assert WithSixBits(n / 0x40000, sixes) == WithSixBits(n / 0x1000, sixes[1..]);
    assert WithSixBits(n / 0x1000, sixes[1..]) == WithSixBits(n / 0x40, [n % 0x40]);
    assert WithSixBits(n / 0x40, [n % 0x40]) == WithSixBits(n / 0x40 * 0x40 + n % 0x40, []);
    assert (n / 0x40000) * 0x40 + (n / 0x1000) % 0x40 == n / 0x1000;
    assert (n / 0x1000) * 0x40 + (n / 0x40) % 0x40 == n / 0x40;
  }

  function PercentBytes(bytes: seq<nat>): string
    requires forall i :: 0 <= i < |bytes| ==> bytes[i] < 256
  {
    if bytes == [] then ""
    else ['%', HexDigit(bytes[0] / 16), HexDigit(bytes[0] % 16)] + PercentBytes(bytes[1..])
  }

  /** `encodeURIComponent(s)`: unreserved characters stay, every other
      character becomes the percent-escapes of its UTF-8 bytes. */
  function EncodeURIComponent(s: string): string {
    if s == [] then ""
    else (if Unreserved(s[0]) then [s[0]] else PercentBytes(Utf8(s[0]))) + EncodeURIComponent(s[1..])
  }

  /** Text made of unreserved characters passes through unchanged, and the
      encoding of any text contains no character that would end a query value. */
  lemma {:induction false} EncodeURIComponentSpec(s: string)
    ensures (forall i :: 0 <= i < |s| ==> Unreserved(s[i])) ==> EncodeURIComponent(s) == s
    ensures forall i :: 0 <= i < |EncodeURIComponent(s)| ==>
      EncodeURIComponent(s)[i] !in {'&', '=', '#', ' ', '?', '+'}
  {
    if s != [] {
      EncodeURIComponentSpec(s[1..]);
      if !Unreserved(s[0]) {
        PercentBytesSafe(Utf8(s[0]));
      }
    }
  }

  lemma {:induction false} PercentBytesSafe(bytes: seq<nat>)
    requires forall i :: 0 <= i < |bytes| ==> bytes[i] < 256
    ensures forall i :: 0 <= i < |PercentBytes(bytes)| ==>
      PercentBytes(bytes)[i] == '%' || ('0' <= PercentBytes(bytes)[i] <= '9') || ('A' <= PercentBytes(bytes)[i] <= 'F')
  {
    if bytes != [] {
      PercentBytesSafe(bytes[1..]);
    }
  }

  /** The message of the error thrown for a non-ok status other than 401. */
  function ApiErrorMessage(status: int, statusText: string): string {
    "API Error: " + IntToString(status) + " " + statusText
  }

  /** What `apiRequest` makes of the answer `f`. */
  function ResultOf<T>(f: Fetched<T>): ApiResult<T> {
    match f
    case NetworkError(reason) => Thrown(reason)
    case Response(status, statusText, body) =>
      if IsOk(status) then Returned(body)
      else if status == 401 then Undefined
      else Thrown(ApiErrorMessage(status, statusText))
  }

  /** The answer `apiRequest` treats as a lost session. */
  predicate Unauthorized<T>(f: Fetched<T>) {
    f.Response? && f.status == 401
  }

  /** The storage after `apiRequest` got the answer `f`: a 401 removes the
      token, every other answer leaves it alone. */
  function StorageAfter<T>(storage: Storage, f: Fetched<T>): Storage {
    if Unauthorized(f) then storage - {TokenKey} else storage
  }

  /** The location after `apiRequest` got the answer `f`: a 401 goes to '/'. */
  function LocationAfter<T>(location: string, f: Fetched<T>): string {
    if Unauthorized(f) then "/" else location
  }

  /** The browser state the client reads and writes. */
  class Browser {
    var storage: Storage
    var location: string

    constructor (storage: Storage, location: string)
      ensures this.storage == storage && this.location == location
    {
      this.storage := storage;
      this.location := location;
    }
  }

  /** `apiRequest(endpoint, options)`: sends one request; an ok response
      gives its body; a 401 removes the token, sends the page to '/' and
      yields `undefined` without throwing; any other status throws and
      leaves the token alone. */
  method ApiRequest<T>(browser: Browser, endpoint: string, options: RequestOptions,
                       fetch: Request -> Fetched<T>)
    returns (sent: Request, result: ApiResult<T>)
    modifies browser
    ensures sent == BuildRequest(old(browser.storage), endpoint, options)
    ensures fetch(sent).NetworkError? ==>
      result == Thrown(fetch(sent).reason) && unchanged(browser)
    ensures fetch(sent).Response? && IsOk(fetch(sent).status) ==>
      result == Returned(fetch(sent).body) && unchanged(browser)
    ensures fetch(sent).Response? && fetch(sent).status == 401 ==>
      result == Undefined && browser.storage == old(browser.storage) - {TokenKey} && browser.location == "/"
    ensures fetch(sent).Response? && !IsOk(fetch(sent).status) && fetch(sent).status != 401 ==>
      result == Thrown(ApiErrorMessage(fetch(sent).status, fetch(sent).statusText)) && unchanged(browser)
    ensures result == ResultOf(fetch(sent))
    ensures browser.storage == StorageAfter(old(browser.storage), fetch(sent))
    ensures browser.location == LocationAfter(old(browser.location), fetch(sent))
  {
    sent := BuildRequest(browser.storage, endpoint, options);
    var response := fetch(sent);
    match response
    case NetworkError(reason) =>
      result := Thrown(reason);
    case Response(status, statusText, body) =>
      if !IsOk(status) {
        if status == 401 {
          browser.storage := browser.storage - {TokenKey};
          browser.location := "/";
          result := Undefined;
          return;
        }
        result := Thrown(ApiErrorMessage(status, statusText));
        return;
      }
      result := Returned(body);
  }
}
