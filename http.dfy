/** The part of net/http's server side that the handlers and the renderer use: a response
    writer whose header map is sent, as it stands, by the first WriteHeader (later calls are
    superfluous and change nothing), whose Write and Flush imply WriteHeader(200), and the
    parts of an incoming request that the handlers read (form values, cookies, headers and
    the remote address). */
module Http {
  import opened Base

  /** The header fields the core sets, in their canonical form. */
  const HdrContentType: string := "Content-Type"
  const HdrContentTypeOptions: string := "X-Content-Type-Options"
  const HdrCacheControl: string := "Cache-Control"
  const HdrPragma: string := "Pragma"
  const HdrConnection: string := "Connection"
  const HdrAllowOrigin: string := "Access-Control-Allow-Origin"
  const HdrAccelBuffering: string := "X-Accel-Buffering"

  /** http.Cookie, reduced to what the core sets and reads. */
  datatype Cookie = Cookie(name: string, value: string, maxAge: int)

  /** A response header: the single-valued fields set with Header().Set and the cookies
      added by http.SetCookie, in order. */
  datatype Head = Head(fields: map<string, string>, cookies: seq<Cookie>)

  /** An http.ResponseWriter.
      - header: what Header() holds now;
      - sent: the header as it was when the status line went out;
      - status: the status code sent (the first WriteHeader, or the implied 200);
      - body: the bytes accepted so far;
      - flushes: the Flush calls;
      - flusher: whether the writer implements http.Flusher;
      - acceptedWrites: how many Write calls the connection accepts before every further
        one fails (a client that went away); writes counts the Write calls made. */
  class Response {
    var header: Head
    var sent: Option<Head>
    var status: Option<int>
    var body: string
    var flushes: nat
    var writes: nat
    const flusher: bool
    const acceptedWrites: nat

    constructor (flusher: bool, acceptedWrites: nat)
      ensures header == Head(map[], []) && sent == None && status == None
      ensures body == [] && flushes == 0 && writes == 0
      ensures this.flusher == flusher && this.acceptedWrites == acceptedWrites
    {
      header := Head(map[], []);
      sent := None;
      status := None;
      body := [];
      flushes := 0;
      writes := 0;
      this.flusher := flusher;
      this.acceptedWrites := acceptedWrites;
    }

    /** The status line has gone out exactly when the header was snapshotted. */
    predicate Valid()
      reads this
    {
      status.Some? <==> sent.Some?
    }

    /** The next Write call succeeds. */
    predicate Accepts()
      reads this
    {
      writes < acceptedWrites
    }

    /** Header().Set(key, value). */
    method SetHeader(key: string, value: string)
      modifies this
      ensures header == old(header).(fields := old(header.fields)[key := value])
      ensures sent == old(sent) && status == old(status) && body == old(body)
      ensures flushes == old(flushes) && writes == old(writes)
    {
      header := header.(fields := header.fields[key := value]);
    }

    /** http.SetCookie: adds a Set-Cookie line to the header. */
    method SetCookie(c: Cookie)
      modifies this
      ensures header == old(header).(cookies := old(header.cookies) + [c])
      ensures sent == old(sent) && status == old(status) && body == old(body)
      ensures flushes == old(flushes) && writes == old(writes)
    {
      header := header.(cookies := header.cookies + [c]);
    }

    /** WriteHeader: the first call sends the status and the header as it stands; every later
        call is superfluous. */
    method WriteHeader(code: int)
      requires Valid()
      modifies this
      ensures Valid()
      ensures status == (if old(status).None? then Some(code) else old(status))
      ensures sent == (if old(status).None? then Some(old(header)) else old(sent))
      ensures header == old(header) && body == old(body)
      ensures flushes == old(flushes) && writes == old(writes)
    {
      if status.None? {
        status := Some(code);
        sent := Some(header);
      }
    }

    /** Write: implies WriteHeader(200); appends the bytes when the connection accepts them and
        reports how many bytes were written (0 on failure) and whether it succeeded. */
    method Write(b: string) returns (n: nat, ok: bool)
      requires Valid()
      modifies this
      ensures Valid()
      ensures ok == old(Accepts()) && n == (if ok then |b| else 0)
      ensures status == (if old(status).None? then Some(200) else old(status))
      ensures sent == (if old(status).None? then Some(old(header)) else old(sent))
      ensures body == old(body) + (if ok then b else [])
      ensures header == old(header) && flushes == old(flushes) && writes == old(writes) + 1
    {
      WriteHeader(200);
      ok := writes < acceptedWrites;
      n := if ok then |b| else 0;
      if ok {
        body := body + b;
      }
      writes := writes + 1;
    }

    /** http.Flusher's Flush: implies WriteHeader(200), then sends what is buffered. */
    method Flush()
      requires Valid() && flusher
      modifies this
      ensures Valid()
      ensures status == (if old(status).None? then Some(200) else old(status))
      ensures sent == (if old(status).None? then Some(old(header)) else old(sent))
      ensures flushes == old(flushes) + 1
      ensures header == old(header) && body == old(body) && writes == old(writes)
    {
      WriteHeader(200);
      flushes := flushes + 1;
    }
  }

  /** The parts of an *http.Request the core reads: the POST form, the cookies in header
      order, the header fields under their canonical keys, and RemoteAddr. */
  datatype Request = Request(
    form: map<string, string>,
    cookies: seq<Cookie>,
    headers: map<string, string>,
    remoteAddr: string)

  /** PostFormValue: the form value, or "" when the key is absent. */
  function PostFormValue(r: Request, key: string): (v: string)
    ensures key in r.form ==> v == r.form[key]
    ensures key !in r.form ==> v == ""
  {
    if key in r.form then r.form[key] else ""
  }

  /** textproto.CanonicalMIMEHeaderKey for a key made of token characters: the first letter
      and every letter after a '-' in upper case, every other ASCII letter in lower case. */
  function CanonicalKey(key: string): (k: string)
    ensures |k| == |key|
  {
    seq(|key|, i requires 0 <= i < |key| => CanonicalChar(key[i], i == 0 || key[i - 1] == '-'))
  }

  function CanonicalChar(c: char, upper: bool): char {
    if upper && 'a' <= c <= 'z' then (c as int - 32) as char
    else if !upper && 'A' <= c <= 'Z' then (c as int + 32) as char
    else c
  }

  /** Header.Get: the value under the canonical form of the key, or "" when absent. */
  function HeaderGet(r: Request, key: string): (v: string)
    ensures CanonicalKey(key) in r.headers ==> v == r.headers[CanonicalKey(key)]
    ensures CanonicalKey(key) !in r.headers ==> v == ""
  {
    var k := CanonicalKey(key);
    if k in r.headers then r.headers[k] else ""
  }

  /** cs[i] is the first cookie of cs named `name`. */
  predicate FirstNamed(cs: seq<Cookie>, name: string, i: int) {
    0 <= i < |cs| && cs[i].name == name && forall j :: 0 <= j < i ==> cs[j].name != name
  }

  /** Request.Cookie(name): the first cookie with that name, or None (http.ErrNoCookie). */
  function FindCookie(cs: seq<Cookie>, name: string): (r: Option<Cookie>)
    ensures r.None? <==> forall i :: 0 <= i < |cs| ==> cs[i].name != name
    ensures r.Some? ==> exists i :: FirstNamed(cs, name, i) && cs[i] == r.value
  {
    if cs == [] then None
    else if cs[0].name == name then
      assert FirstNamed(cs, name, 0);
      Some(cs[0])
    else
      var r := FindCookie(cs[1..], name);
      if r.Some? then
        var i :| FirstNamed(cs[1..], name, i) && cs[1..][i] == r.value;
        assert FirstNamed(cs, name, i + 1);
        r
      else r
  }
}
