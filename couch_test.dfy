/**
 * The scenarios of couch/couch_test.go, stated over the specification of the
 * hostname search: each mock database becomes a Store, and what each test
 * checks becomes an ensures clause.
 */
module CouchTest {
  import opened PcConfig
  import opened GoErrors
  import opened Couch

  /** The mapping document every scenario stores under "TEC-ITB-1101". */
  const Mapping := PcMapping(Bytes("ITB-1101"), Bytes("Test Control Group"))

  const MappedHost := Bytes("TEC-ITB-1101")

  /** The 404 error the mock returns for a missing document. */
  const Missing := StoreError(StatusNotFound, "error")

  /** A pc-mapping database holding only the document for "TEC-ITB-1101". */
  const OneMapping: Store<PcMapping> :=
    key => if key == MappedHost then Doc(Mapping) else Fail(Missing)

  /** An exact match is found with a single lookup. */
  lemma ExactMatch()
    ensures Lookups(OneMapping, MappedHost) == [MappedHost]
    ensures Resolve(OneMapping, MappedHost) == Resolved(Bytes("ITB-1101"), Bytes("Test Control Group"))
  {
  }

  /** A failure other than "not found" on the first lookup is returned at once, still recognisable. */
  lemma FirstLookupFails()
    ensures var failing: Store<PcMapping> := key => Fail(Plain("a bad error!"));
            && Lookups(failing, MappedHost) == [MappedHost]
            && Resolve(failing, MappedHost).Unresolved?
            && Is(Resolve(failing, MappedHost).err, Plain("a bad error!"))
  {
  }

  /**
   * "TEC-ITB-1101-NEW" is tried, then three shorter keys, and resolves through
   * the mapping of "TEC-ITB-1101" on the fifth lookup.
   */
  lemma RetryFindsPrefix()
    ensures var host := MappedHost + Bytes("-NEW");
            && Lookups(OneMapping, host)
               == [host, MappedHost + Bytes("-NE"), MappedHost + Bytes("-N"), MappedHost + Bytes("-"), MappedHost]
            && Resolve(OneMapping, host) == Resolved(Bytes("ITB-1101"), Bytes("Test Control Group"))
  {
    var host := MappedHost + Bytes("-NEW");
    assert host[..|MappedHost|] == MappedHost;
    StopsAtFirstAnswer(OneMapping, host, 4);
    assert host[..15] == MappedHost + Bytes("-NE");
    assert host[..14] == MappedHost + Bytes("-N");
    assert host[..13] == MappedHost + Bytes("-");
  }

  /**
   * After two "not found" answers, a different failure on the third key ends
   * the search with that failure.
   */
  lemma RetryStopsOnOtherFailure()
    ensures var host := MappedHost + Bytes("-NEW");
            var broken: Store<PcMapping> :=
              key => if key == MappedHost + Bytes("-N") then Fail(Plain("some error")) else Fail(Missing);
            && |Lookups(broken, host)| == 3
            && Resolve(broken, host).Unresolved?
            && Is(Resolve(broken, host).err, Plain("some error"))
  {
    var host := MappedHost + Bytes("-NEW");
    var broken: Store<PcMapping> :=
      key => if key == MappedHost + Bytes("-N") then Fail(Plain("some error")) else Fail(Missing);
    assert host[..14] == MappedHost + Bytes("-N");
    StopsAtFirstAnswer(broken, host, 2);
  }

  /**
   * With no mapping at all, "TEC-ITB-1101" is tried ten times, down to "TEC",
   * and the error still reads as "not found".
   */
  lemma TooShort()
    ensures var empty: Store<PcMapping> := key => Fail(Missing);
            var host := MappedHost;
            && |Lookups(empty, host)| == 10
            && Lookups(empty, host)[9] == Bytes("TEC")
            && Resolve(empty, host).Unresolved?
            && StatusCode(Resolve(empty, host).err) == StatusNotFound
  {
    var empty: Store<PcMapping> := key => Fail(Missing);
    var host := MappedHost;
    assert host[..3] == Bytes("TEC");
    StopsAtFirstAnswer(empty, host, 9);
  }

  /** A camera whose endpoints are the mock's URLs, with two presets. */
  const MockCamera := Camera(Bytes("mock cam"),
    Bytes("https://tiltUp"), Bytes("https://tiltDown"),
    Bytes("https://panLeft"), Bytes("https://panRight"), Bytes("https://panTiltStop"),
    Bytes("https://zoomIn"), Bytes("https://zoomOut"), Bytes("https://zoomStop"),
    Bytes("https://stream"),
    [CameraPreset(Bytes("mock preset 1"), Bytes("https://mock preset 1")),
     CameraPreset(Bytes("mock preset 2"), Bytes("https://mock preset 2"))])

  const Room := Bytes("ITB-1101")

  /** A ui-configuration database holding one room with one group, "Camera", that has the mock camera. */
  const Rooms: Store<UIConfig> :=
    key => if key == Room
           then Doc(UIConfig([ControlGroup(Bytes("Camera"), [MockCamera])]))
           else Fail(Missing)

  /** The same room with a second group, "Empty", that has no cameras. */
  const RoomsWithEmptyGroup: Store<UIConfig> :=
    key => if key == Room
           then Doc(UIConfig([ControlGroup(Bytes("Camera"), [MockCamera]), ControlGroup(Bytes("Empty"), [])]))
           else Fail(Missing)

  /** The group "Camera" gives its one camera, unchanged. */
  method CameraFound() returns (cameras: seq<Camera>, err: Option<Error>)
    ensures err.None? && cameras == [MockCamera]
  {
    cameras, err := Cameras(Rooms, Room, Bytes("Camera"));
    assert Rooms(Room).doc.controlGroups[0].id == Bytes("Camera");
  }

  /** A matching group with no cameras is a success with an empty list. */
  method CameraGroupEmpty() returns (cameras: seq<Camera>, err: Option<Error>)
    ensures err.None? && cameras == []
  {
    cameras, err := Cameras(RoomsWithEmptyGroup, Room, Bytes("Empty"));
    assert RoomsWithEmptyGroup(Room).doc.controlGroups[1].id == Bytes("Empty");
    assert Bytes("Empty") != Bytes("Camera") by { assert Bytes("Empty")[0] != Bytes("Camera")[0]; }
  }

  /** A room whose groups do not include the requested one gives "no matching control group found". */
  method CameraMissing() returns (cameras: seq<Camera>, err: Option<Error>)
    ensures err == Some(NoMatchingControlGroup) && cameras == []
    ensures Text(err.value) == "no matching control group found"
  {
    cameras, err := Cameras(Rooms, Room, Bytes("Invalid Preset"));
    assert Bytes("Invalid Preset") != Bytes("Camera");
  }

  /** A room document that cannot be decoded gives "unable to get/scan ui config", wrapping the decode error. */
  method CameraInvalidConfig() returns (cameras: seq<Camera>, err: Option<Error>)
    ensures err == Some(Wrapped(UIConfigContext, Plain("json: cannot unmarshal"))) && cameras == []
    ensures UIConfigContext <= Text(err.value)
  {
    var unreadable: Store<UIConfig> := key => Fail(Plain("json: cannot unmarshal"));
    cameras, err := Cameras(unreadable, Room, Bytes("Invalid Preset"));
  }
}
