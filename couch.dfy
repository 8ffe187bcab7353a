/**
 * The CouchDB-backed configuration service (couch/couch.go, couch/structs.go).
 *
 * A PC's hostname is resolved to a room and a control group through the
 * pc-mapping database, falling back to ever shorter prefixes of the hostname;
 * the room's ui-configuration document then gives the cameras of that
 * control group.
 *
 * Each database is an oracle from document ID to what fetching and decoding
 * that document yields. The loop in RoomAndControlGroup is specified by the
 * recursive functions Lookups (the keys it asks for, in order) and Resolve
 * (what it returns); the lemmas after them characterise both.
 */
module Couch {
  import opened PcConfig
  import opened GoErrors

  /** A pc-mapping document: the room (its ui-configuration ID) and control group of a hostname. */
  datatype PcMapping = PcMapping(uiConfig: GoString, controlGroup: GoString)

  /** A named control group of a room and the cameras it controls. */
  datatype ControlGroup = ControlGroup(id: GoString, cameras: seq<Camera>)

  /** A ui-configuration document: the room's control groups, in document order. */
  datatype UIConfig = UIConfig(controlGroups: seq<ControlGroup>)

  /** What fetching a document and decoding it yields: the document, or the error. */
  datatype Fetch<T> = Doc(doc: T) | Fail(err: Error)

  /** A database, as the result of fetching each document ID. */
  type Store<T> = GoString -> Fetch<T>

  const MappingContext := "unable to get/scan pc mapping"
  const UIConfigContext := "unable to get/scan ui config"
  const NoMatchingControlGroup := Plain("no matching control group found")

  /** Truncation goes on only after a key of at least this many bytes was not found. */
  const MinKeyLength := 4

  /** The status code the client reports for a fetch: 0 for success, else the error's. */
  function Code<T>(f: Fetch<T>): (c: int)
    ensures c == 0 <==> f.Doc?
  {
    if f.Doc? then 0 else StatusCode(f.err)
  }

  predicate IsNotFound<T>(f: Fetch<T>)
  {
    Code(f) == StatusNotFound
  }

  // ---------------------------------------------------------------------
  // RoomAndControlGroup
  // ---------------------------------------------------------------------

  /** What RoomAndControlGroup yields: a room and control group, or an error. */
  datatype Resolution = Resolved(room: GoString, controlGroup: GoString) | Unresolved(err: Error)

  /** After looking up `key`, the search goes on with `key` one byte shorter. */
  predicate Retries(mappings: Store<PcMapping>, key: GoString)
  {
    IsNotFound(mappings(key)) && |key| >= MinKeyLength
  }

  /**
   * The answer given by the lookup that ends the search: the mapping's fields
   * verbatim, or its error wrapped as a mapping failure.
   */
  function Conclude(f: Fetch<PcMapping>): (r: Resolution)
    ensures f.Doc? ==> r == Resolved(f.doc.uiConfig, f.doc.controlGroup)
    ensures f.Fail? ==> r.Unresolved? && Is(r.err, f.err) && StatusCode(r.err) == StatusCode(f.err)
  {
    match f
    case Doc(m) => Resolved(m.uiConfig, m.controlGroup)
    case Fail(e) => Unresolved(Wrapped(MappingContext, e))
  }

  /** The keys RoomAndControlGroup looks up for `hostname`, in order. */
  function Lookups(mappings: Store<PcMapping>, hostname: GoString): seq<GoString>
    decreases |hostname|
  {
    if Retries(mappings, hostname)
    then [hostname] + Lookups(mappings, hostname[..|hostname| - 1])
    else [hostname]
  }

  /** What RoomAndControlGroup returns for `hostname`. */
  function Resolve(mappings: Store<PcMapping>, hostname: GoString): Resolution
    decreases |hostname|
  {
    if Retries(mappings, hostname)
    then Resolve(mappings, hostname[..|hostname| - 1])
    else Conclude(mappings(hostname))
  }

  /**
   * Resolves a hostname to its room and control group. The hostname is looked
   * up as a document ID; while the answer is "not found" and the key tried has
   * at least four bytes, its last byte is dropped and the lookup repeated. The
   * first document found gives the result; any other failure ends the search.
   * On error both strings are empty. `tried` records the keys looked up.
   */
  method RoomAndControlGroup(mappings: Store<PcMapping>, hostname: GoString)
    returns (room: GoString, controlGroup: GoString, err: Option<Error>, ghost tried: seq<GoString>)
    ensures tried == Lookups(mappings, hostname)
    ensures err.None? ==> Resolve(mappings, hostname) == Resolved(room, controlGroup)
    ensures err.Some? ==> Resolve(mappings, hostname) == Unresolved(err.value) && room == [] && controlGroup == []
  {
    var key := hostname;
    var last: Error;
    tried := [];
    while true
      invariant |key| <= |hostname| && key == hostname[..|key|]
      invariant tried + Lookups(mappings, key) == Lookups(mappings, hostname)
      invariant Resolve(mappings, key) == Resolve(mappings, hostname)
      decreases |key|
    {
      var fetched := mappings(key);
      tried := tried + [key];
      var code := Code(fetched);
      if code == 0 {
        return fetched.doc.uiConfig, fetched.doc.controlGroup, None, tried;
      } else if code == StatusNotFound {
        // try again
      } else {
        return [], [], Some(Wrapped(MappingContext, fetched.err)), tried;
      }
      last := fetched.err;

      if |key| < MinKeyLength {
        break;
      }

      key := key[..|key| - 1];
    }
    return [], [], Some(Wrapped(MappingContext, last)), tried;
  }

  // ---------------------------------------------------------------------
  // Properties of the hostname search
  // ---------------------------------------------------------------------

  /** The length of the last key tried when every lookup is "not found". */
  function ShortestKey(n: nat): (k: nat)
    ensures k <= n && k < MinKeyLength
    ensures n >= MinKeyLength - 1 ==> k == MinKeyLength - 1
  {
    if n < MinKeyLength then n else MinKeyLength - 1
  }

  /**
   * The keys looked up are the hostname and then its prefixes, each one byte
   * shorter than the one before.
   */
  lemma {:induction false} LookupsAreTruncations(mappings: Store<PcMapping>, hostname: GoString)
    ensures 1 <= |Lookups(mappings, hostname)| <= |hostname| + 1
    ensures forall i | 0 <= i < |Lookups(mappings, hostname)| ::
              Lookups(mappings, hostname)[i] == hostname[..|hostname| - i]
    ensures forall i | 0 < i < |Lookups(mappings, hostname)| ::
              var previous := Lookups(mappings, hostname)[i - 1];
              |previous| > 0 && Lookups(mappings, hostname)[i] == previous[..|previous| - 1]
    decreases |hostname|
  {
    var keys := Lookups(mappings, hostname);
    if Retries(mappings, hostname) {
      var shorter := hostname[..|hostname| - 1];
      LookupsAreTruncations(mappings, shorter);
      var rest := Lookups(mappings, shorter);
      assert keys == [hostname] + rest;
      forall i | 0 < i < |keys|
        ensures keys[i] == hostname[..|hostname| - i]
      {
        assert keys[i] == rest[i - 1];
      }
    }
  }

  /**
   * A hostname shorter than four bytes is looked up once. A hostname of n >= 3
   * bytes is looked up at most n - 2 times, and no key shorter than three bytes
   * is ever tried.
   */
  lemma {:induction false} LookupCountBound(mappings: Store<PcMapping>, hostname: GoString)
    ensures |hostname| < MinKeyLength ==> |Lookups(mappings, hostname)| == 1
    ensures |hostname| >= MinKeyLength - 1 ==>
              |Lookups(mappings, hostname)| <= |hostname| - (MinKeyLength - 2)
              && forall k <- Lookups(mappings, hostname) :: |k| >= MinKeyLength - 1
    decreases |hostname|
  {
    if Retries(mappings, hostname) {
      var shorter := hostname[..|hostname| - 1];
      LookupCountBound(mappings, shorter);
      assert Lookups(mappings, hostname) == [hostname] + Lookups(mappings, shorter);
    }
  }

  /**
   * Every lookup but the last answered "not found" for a key of at least four
   * bytes; the last one found a document, failed otherwise, or was too short
   * to truncate. The result is the last lookup's answer.
   */
  lemma {:induction false} OnlyLastLookupAnswers(mappings: Store<PcMapping>, hostname: GoString)
    ensures |Lookups(mappings, hostname)| >= 1
    ensures forall i | 0 <= i < |Lookups(mappings, hostname)| - 1 ::
              IsNotFound(mappings(Lookups(mappings, hostname)[i]))
              && |Lookups(mappings, hostname)[i]| >= MinKeyLength
    ensures var keys := Lookups(mappings, hostname);
            var last := keys[|keys| - 1];
            && (IsNotFound(mappings(last)) ==> |last| < MinKeyLength)
            && Resolve(mappings, hostname) == Conclude(mappings(last))
    decreases |hostname|
  {
    var keys := Lookups(mappings, hostname);
    if Retries(mappings, hostname) {
      var shorter := hostname[..|hostname| - 1];
      OnlyLastLookupAnswers(mappings, shorter);
      var rest := Lookups(mappings, shorter);
      assert keys == [hostname] + rest;
      assert keys[|keys| - 1] == rest[|rest| - 1];
      forall i | 0 < i < |keys| - 1
        ensures IsNotFound(mappings(keys[i])) && |keys[i]| >= MinKeyLength
      {
        assert keys[i] == rest[i - 1];
      }
    }
  }

  /**
   * A successful search returns, verbatim, the mapping of the longest prefix of
   * the hostname that the search reached: every longer prefix was "not found".
   */
  lemma ResolvedFromLongestPrefix(mappings: Store<PcMapping>, hostname: GoString)
    ensures Resolve(mappings, hostname).Resolved? ==>
              var keys := Lookups(mappings, hostname);
              var found := keys[|keys| - 1];
              && |found| <= |hostname| && found == hostname[..|found|]
              && mappings(found).Doc?
              && Resolve(mappings, hostname) == Resolved(mappings(found).doc.uiConfig, mappings(found).doc.controlGroup)
              && forall n | |found| < n <= |hostname| :: IsNotFound(mappings(hostname[..n]))
  {
    LookupsAreTruncations(mappings, hostname);
    OnlyLastLookupAnswers(mappings, hostname);
    var keys := Lookups(mappings, hostname);
    var found := keys[|keys| - 1];
    forall n | |found| < n <= |hostname|
      ensures IsNotFound(mappings(hostname[..n]))
    {
      assert keys[|hostname| - n] == hostname[..n];
    }
  }

  /**
   * When the search starts from an answered key after i "not found" keys, it
   * looks up exactly i + 1 keys and the (i+1)-th key's answer is the result: a
   * found mapping verbatim, or its error wrapped so that errors.Is and the
   * status code still see it.
   */
  lemma StopsAtFirstAnswer(mappings: Store<PcMapping>, hostname: GoString, i: nat)
    requires i <= |hostname|
    requires forall n | |hostname| - i < n <= |hostname| :: Retries(mappings, hostname[..n])
    requires !Retries(mappings, hostname[..|hostname| - i])
    ensures |Lookups(mappings, hostname)| == i + 1
    ensures forall j | 0 <= j <= i :: Lookups(mappings, hostname)[j] == hostname[..|hostname| - j]
    ensures Resolve(mappings, hostname) == Conclude(mappings(hostname[..|hostname| - i]))
  {
    LookupsAreTruncations(mappings, hostname);
    OnlyLastLookupAnswers(mappings, hostname);
    var keys := Lookups(mappings, hostname);
    var k := |keys| - 1;
    assert keys[k] == hostname[..|hostname| - k];
    assert !Retries(mappings, keys[k]);
    assert k >= i;
    forall n | |hostname| - k < n <= |hostname|
      ensures Retries(mappings, hostname[..n])
    {
      assert keys[|hostname| - n] == hostname[..n];
    }
  }

  /**
   * The result is a "not found" error exactly when every key down to three
   * bytes (or the whole hostname, when shorter) is "not found". The error then
   * wraps the last such answer, and n - 2 keys were tried for n >= 3 bytes.
   */
  lemma NotFoundEverywhere(mappings: Store<PcMapping>, hostname: GoString)
    ensures (Resolve(mappings, hostname).Unresolved? && StatusCode(Resolve(mappings, hostname).err) == StatusNotFound)
            <==> forall n | ShortestKey(|hostname|) <= n <= |hostname| :: IsNotFound(mappings(hostname[..n]))
    ensures (forall n | ShortestKey(|hostname|) <= n <= |hostname| :: IsNotFound(mappings(hostname[..n]))) ==>
              && |Lookups(mappings, hostname)| == |hostname| - ShortestKey(|hostname|) + 1
              && Resolve(mappings, hostname).Unresolved?
              && Is(Resolve(mappings, hostname).err, mappings(hostname[..ShortestKey(|hostname|)]).err)
  {
    LookupsAreTruncations(mappings, hostname);
    OnlyLastLookupAnswers(mappings, hostname);
    var keys := Lookups(mappings, hostname);
    var last := keys[|keys| - 1];
    var lo := ShortestKey(|hostname|);
    var r := Resolve(mappings, hostname);
    LookupCountBound(mappings, hostname);
    assert last in keys;
    assert last == hostname[..|hostname| - (|keys| - 1)];
    if r.Unresolved? && StatusCode(r.err) == StatusNotFound {
      assert IsNotFound(mappings(last));
      forall n | lo <= n <= |hostname|
        ensures IsNotFound(mappings(hostname[..n]))
      {
        assert keys[|hostname| - n] == hostname[..n];
      }
    }
    if forall n | lo <= n <= |hostname| :: IsNotFound(mappings(hostname[..n])) {
      assert IsNotFound(mappings(last));
      assert |last| == lo;
    }
  }

  // ---------------------------------------------------------------------
  // Cameras
  // ---------------------------------------------------------------------

  /**
   * The cameras of a control group of a room: the camera list of the first
   * control group, in document order, whose ID is `controlGroup`. A fetch or
   * decode failure of the room's document, and a document with no such group,
   * are distinct errors; on either the list is empty.
   */
  method Cameras(uiConfigs: Store<UIConfig>, room: GoString, controlGroup: GoString)
    returns (cameras: seq<Camera>, err: Option<Error>)
    ensures uiConfigs(room).Fail? ==>
              cameras == [] && err == Some(Wrapped(UIConfigContext, uiConfigs(room).err))
    ensures uiConfigs(room).Doc? ==>
              var groups := uiConfigs(room).doc.controlGroups;
              && (err.None? <==> exists i | 0 <= i < |groups| :: groups[i].id == controlGroup)
              && (err.None? ==>
                    exists i | 0 <= i < |groups| ::
                      && groups[i].id == controlGroup
                      && cameras == groups[i].cameras
                      && forall j | 0 <= j < i :: groups[j].id != controlGroup)
              && (err.Some? ==> cameras == [] && err == Some(NoMatchingControlGroup))
  {
    var fetched := uiConfigs(room);
    if fetched.Fail? {
      return [], Some(Wrapped(UIConfigContext, fetched.err));
    }

    var groups := fetched.doc.controlGroups;
    for i := 0 to |groups|
      invariant forall j | 0 <= j < i :: groups[j].id != controlGroup
    {
      if groups[i].id == controlGroup {
        return groups[i].cameras, None;
      }
    }

    return [], Some(NoMatchingControlGroup);
  }
}
