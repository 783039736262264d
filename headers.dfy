/** The HTTP header multimap (Go's `http.Header`, a `map[string][]string`)
    and the header names the library uses. Keys are taken to be already in
    canonical form; Go's key canonicalisation is not modelled. */
module Headers {

  type HeaderMap = map<string, seq<string>>

  const Accept := "Accept"
  const AcceptEncoding := "Accept-Encoding"
  const CacheControl := "Cache-Control"
  const Location := "Location"
  const ContentType := "Content-Type"
  const ContentLength := "Content-Length"
  const ContentDisposition := "Content-Disposition"
  const AccessControlAllowOrigin := "Access-Control-Allow-Origin"
  const AccessControlAllowMethods := "Access-Control-Allow-Methods"
  const AccessControlAllowHeaders := "Access-Control-Allow-Headers"
  const XContentTypeOptions := "X-Content-Type-Options"
  const XFrameOptions := "X-Frame-Options"
  const ReferrerPolicy := "Referrer-Policy"

  const ContentTypeJson := "application/json"
  const ContentTypeXml := "application/xml"
  const ContentTypeHtml := "text/html"
  const ContentTypePlain := "text/plain"
  const ContentTypePlainUtf8 := "text/plain; charset=utf-8"
  const ContentTypeOctetStream := "application/octet-stream"

  const NoSniff := "nosniff"
  const FrameOptionsDeny := "DENY"
  const StrictOriginWhenCrossOrigin := "strict-origin-when-cross-origin"

  /** `h.Values(key)`: every value stored under the key, none when absent. */
  function ValuesOf(h: HeaderMap, key: string): seq<string> {
    if key in h then h[key] else []
  }

  /** `h.Get(key)`: the first value, or "" when there is none. */
  function GetOf(h: HeaderMap, key: string): string {
    var vs := ValuesOf(h, key);
    if |vs| > 0 then vs[0] else ""
  }

  /** `h.Add(key, value)`: appends to the values of `key`. */
  function Appended(h: HeaderMap, key: string, value: string): (r: HeaderMap)
    ensures ValuesOf(r, key) == ValuesOf(h, key) + [value]
    ensures r.Keys == h.Keys + {key}
    ensures forall k :: k != key ==> ValuesOf(r, k) == ValuesOf(h, k)
  {
    h[key := ValuesOf(h, key) + [value]]
  }

  /** `h.Set(key, value)`: replaces every value of `key` by the one value. */
  function Replaced(h: HeaderMap, key: string, value: string): (r: HeaderMap)
    ensures ValuesOf(r, key) == [value] && GetOf(r, key) == value
    ensures r.Keys == h.Keys + {key}
    ensures forall k :: k != key ==> ValuesOf(r, k) == ValuesOf(h, k)
  {
    h[key := [value]]
  }

  /** `h.Del(key)`: removes the key and all of its values. */
  function Removed(h: HeaderMap, key: string): (r: HeaderMap)
    ensures key !in r && ValuesOf(r, key) == [] && GetOf(r, key) == ""
    ensures r.Keys == h.Keys - {key}
    ensures forall k :: k != key ==> ValuesOf(r, k) == ValuesOf(h, k)
  {
    h - {key}
  }

  /** Setting the only key of a one-entry header leaves a one-entry header. */
  lemma ReplacedSingleton(key: string, before: string, value: string)
    ensures Replaced(map[key := [before]], key, value) == map[key := [value]]
  {
    var r := Replaced(map[key := [before]], key, value);
    assert r.Keys == {key};
  }

  /** Keys under which `h` holds at least one value: the keys an
      `Add`-per-value loop over `h` creates. */
  function KeysWithValues(h: HeaderMap): set<string> {
    set k | k in h && h[k] != []
  }

  /** What adding every value of `src` to `dst`, key by key and in each key's
      own order, produces. The order in which the keys are visited does not
      matter, which is why Go's random map iteration order is harmless here. */
  function Merge(dst: HeaderMap, src: HeaderMap): (r: HeaderMap)
    ensures r.Keys == dst.Keys + KeysWithValues(src)
    ensures forall k :: ValuesOf(r, k) == ValuesOf(dst, k) + ValuesOf(src, k)
  {
    map k | k in dst.Keys + KeysWithValues(src) :: ValuesOf(dst, k) + ValuesOf(src, k)
  }

  /** The state of an `Add`-per-value loop over `src` once it has visited the
      keys in `done`: which keys exist ... */
  ghost predicate KeysMergedSoFar(r: HeaderMap, dst: HeaderMap, src: HeaderMap, done: set<string>) {
    r.Keys == dst.Keys + (set j | j in done && j in src && src[j] != [])
  }

  /** ... and what each key holds. */
  ghost predicate ValuesMergedSoFar(r: HeaderMap, dst: HeaderMap, src: HeaderMap, done: set<string>) {
    forall j :: ValuesOf(r, j) == ValuesOf(dst, j) + (if j in done then ValuesOf(src, j) else [])
  }

  ghost predicate MergedSoFar(r: HeaderMap, dst: HeaderMap, src: HeaderMap, done: set<string>) {
    KeysMergedSoFar(r, dst, src, done) && ValuesMergedSoFar(r, dst, src, done)
  }

  /** Visiting one more key keeps the loop state a partial merge. */
  lemma MergedSoFarStep(base: HeaderMap, next: HeaderMap, dst: HeaderMap, src: HeaderMap,
                        done: set<string>, k: string)
    requires MergedSoFar(base, dst, src, done)
    requires k in src && k !in done
    requires next.Keys == base.Keys + (if src[k] == [] then {} else {k})
    requires ValuesOf(next, k) == ValuesOf(base, k) + src[k]
    requires forall j :: j != k ==> ValuesOf(next, j) == ValuesOf(base, j)
    ensures MergedSoFar(next, dst, src, done + {k})
  {
    KeysStep(base, next, dst, src, done, k);
  }

  lemma KeysStep(base: HeaderMap, next: HeaderMap, dst: HeaderMap, src: HeaderMap, done: set<string>, k: string)
    requires KeysMergedSoFar(base, dst, src, done)
    requires k in src && k !in done
    requires next.Keys == base.Keys + (if src[k] == [] then {} else {k})
    ensures KeysMergedSoFar(next, dst, src, done + {k})
  {
  }

  /** Once every key is visited, the loop state is the merge. */
  lemma {:induction false} MergedSoFarComplete(r: HeaderMap, dst: HeaderMap, src: HeaderMap)
    requires MergedSoFar(r, dst, src, src.Keys)
    ensures r == Merge(dst, src)
  {
    var m := Merge(dst, src);
    assert r.Keys == m.Keys;
    forall j | j in r.Keys
      ensures r[j] == m[j]
    {
      assert r[j] == ValuesOf(r, j) && m[j] == ValuesOf(m, j);
    }
  }

  /** Two `Add`s of the same pair keep both copies (append semantics), while
      two `Set`s leave exactly one value. */
  lemma {:induction false} AddTwiceKeepsBoth(h: HeaderMap, key: string, value: string)
    ensures ValuesOf(Appended(Appended(h, key, value), key, value), key) == ValuesOf(h, key) + [value, value]
    ensures ValuesOf(Replaced(Replaced(h, key, value), key, value), key) == [value]
  {
    assert ValuesOf(h, key) + [value] + [value] == ValuesOf(h, key) + [value, value];
  }

  /** net/http's `http.Header`: a mutable map shared by everything holding the
      reference. */
  class Header {
    var entries: HeaderMap

    constructor()
      ensures entries == map[]
    {
      entries := map[];
    }

    function Values(key: string): seq<string>
      reads this
    {
      ValuesOf(entries, key)
    }

    function Get(key: string): string
      reads this
    {
      GetOf(entries, key)
    }

    method Add(key: string, value: string)
      modifies this
      ensures entries == Appended(old(entries), key, value)
    {
      entries := Appended(entries, key, value);
    }

    method Set(key: string, value: string)
      modifies this
      ensures entries == Replaced(old(entries), key, value)
    {
      entries := Replaced(entries, key, value);
    }

    method Del(key: string)
      modifies this
      ensures entries == Removed(old(entries), key)
    {
      entries := Removed(entries, key);
    }

    /** `for _, v := range values { h.Add(key, v) }` */
    method AddValues(key: string, values: seq<string>)
      modifies this
      ensures entries.Keys == old(entries).Keys + (if values == [] then {} else {key})
      ensures ValuesOf(entries, key) == ValuesOf(old(entries), key) + values
      ensures forall j :: j != key ==> ValuesOf(entries, j) == ValuesOf(old(entries), j)
    {
      var i := 0;
      while i < |values|
        invariant 0 <= i <= |values|
        invariant entries.Keys == old(entries).Keys + (if i == 0 then {} else {key})
        invariant ValuesOf(entries, key) == ValuesOf(old(entries), key) + values[..i]
        invariant forall j :: j != key ==> ValuesOf(entries, j) == ValuesOf(old(entries), j)
      {
        Add(key, values[i]);
        assert values[..i + 1] == values[..i] + [values[i]];
        i := i + 1;
      }
      assert values[..i] == values;
    }

    /** `for key, values := range src { for _, v := range values { h.Add(key, v) } }`,
        visiting the keys in an arbitrary order as Go does. */
    method AddAll(src: HeaderMap)
      modifies this
      ensures entries == Merge(old(entries), src)
    {
      var done: set<string> := {};
      var todo := src.Keys;
      while todo != {}
        invariant todo == src.Keys - done && done <= src.Keys
        invariant MergedSoFar(entries, old(entries), src, done)
        decreases todo
      {
        var k :| k in todo;
        ghost var base := entries;
        AddValues(k, src[k]);
        MergedSoFarStep(base, entries, old(entries), src, done, k);
        done := done + {k};
        todo := todo - {k};
      }
      MergedSoFarComplete(entries, old(entries), src);
    }
  }
}
