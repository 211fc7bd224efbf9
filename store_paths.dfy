/**
 * The etcd key layout of the app-service store: a service lives at
 * `/loggregator/services/<app id>/<service id>` and an app's services share the
 * directory `/loggregator/services/<app id>`.
 */
module StorePaths {
  import opened Wrappers

  const ServicesRoot: string := "/loggregator/services"

  /** `path.Join`: the non-empty elements, separated by single slashes. */
  function Join(elems: seq<string>): string
  {
    if elems == [] then ""
    else
      var init := Join(elems[..|elems| - 1]);
      var last := elems[|elems| - 1];
      if last == "" then init
      else if init == "" then last
      else init + "/" + last
  }

  /** The key of one service of an app (the `key` helper). */
  function Key(appId: string, serviceId: string): string
  {
    Join([ServicesRoot, appId, serviceId])
  }

  /** The directory holding every service of an app. */
  function AppDirKey(appId: string): string
  {
    Join([ServicesRoot, appId])
  }

  /** `strings.Split(p, "/")`: the pieces between slashes, empty ones included. */
  function Split(p: string): (parts: seq<string>)
    ensures |parts| >= 1
  {
    if p == [] then [""]
    else
      var rest := Split(p[1..]);
      if p[0] == '/' then [""] + rest else [[p[0]] + rest[0]] + rest[1..]
  }

  /** The non-empty pieces of a path. */
  function Segments(p: string): seq<string>
  {
    NonEmpty(Split(p))
  }

  function NonEmpty(parts: seq<string>): (r: seq<string>)
    ensures forall i :: 0 <= i < |r| ==> r[i] != ""
  {
    if parts == [] then []
    else if parts[0] == "" then NonEmpty(parts[1..])
    else [parts[0]] + NonEmpty(parts[1..])
  }

  /** `path.Base`: the last element of a path; "/" for a path of slashes only, "." for "". */
  function Base(p: string): string
  {
    var segs := Segments(p);
    if segs != [] then segs[|segs| - 1]
    else if p == "" then "."
    else "/"
  }

  /** The app id and service id a service key names, if it is one. */
  function ParseKey(k: string): Option<(string, string)>
  {
    var segs := Segments(k);
    if |segs| == 4 && segs[0] == "loggregator" && segs[1] == "services" then Some((segs[2], segs[3]))
    else None
  }

  predicate IsSegment(s: string)
  {
    s != "" && '/' !in s
  }

  lemma {:induction false} SplitSegment(a: string)
    requires '/' !in a
    ensures Split(a) == [a]
  {
    if a != [] {
      SplitSegment(a[1..]);
      assert a[0] in a;
      assert [a[0]] + a[1..] == a;
    }
  }

  lemma {:induction false} SplitAfterSegment(a: string, rest: string)
    requires '/' !in a
    ensures Split(a + "/" + rest) == [a] + Split(rest)
  {
    if a == [] {
      assert a + "/" + rest == ['/'] + rest;
      assert (['/'] + rest)[1..] == rest;
    } else {
      assert (a + "/" + rest)[1..] == a[1..] + "/" + rest;
      SplitAfterSegment(a[1..], rest);
      assert [a[0]] + a[1..] == a;
    }
  }

  /** A service key is its app's directory followed by the service id. */
  lemma KeyUnderAppDir(appId: string, serviceId: string)
    requires appId != "" && serviceId != ""
    ensures Key(appId, serviceId) == AppDirKey(appId) + "/" + serviceId
    ensures AppDirKey(appId) == ServicesRoot + "/" + appId
  {
    assert [ServicesRoot, appId, serviceId][..2] == [ServicesRoot, appId];
    assert [ServicesRoot, appId][..1] == [ServicesRoot];
    assert [ServicesRoot][..0] == [];
    assert ServicesRoot[0] == '/';
    assert Join([ServicesRoot]) == ServicesRoot;
    assert Join([ServicesRoot, appId]) == ServicesRoot + "/" + appId;
  }

  lemma RootSplit(tail: string)
    ensures Split(ServicesRoot + "/" + tail) == ["", "loggregator", "services"] + Split(tail)
  {
    assert ServicesRoot + "/" + tail == "" + "/" + ("loggregator" + "/" + ("services" + "/" + tail));
    SplitAfterSegment("", "loggregator" + "/" + ("services" + "/" + tail));
    SplitAfterSegment("loggregator", "services" + "/" + tail);
    SplitAfterSegment("services", tail);
  }

  /** Reading a service key back gives the app id and service id it was built from. */
  lemma KeyRoundTrip(appId: string, serviceId: string)
    requires IsSegment(appId) && IsSegment(serviceId)
    ensures ParseKey(Key(appId, serviceId)) == Some((appId, serviceId))
  {
    KeyUnderAppDir(appId, serviceId);
    assert Key(appId, serviceId) == ServicesRoot + "/" + (appId + "/" + serviceId);
    RootSplit(appId + "/" + serviceId);
    SplitAfterSegment(appId, serviceId);
    SplitSegment(serviceId);
    var parts := ["", "loggregator", "services", appId, serviceId];
    assert Split(Key(appId, serviceId)) == parts;
    assert NonEmpty(parts[4..]) == [serviceId];
    assert NonEmpty(parts[3..]) == [appId, serviceId];
    assert NonEmpty(parts[2..]) == ["services", appId, serviceId];
    assert NonEmpty(parts[1..]) == ["loggregator", "services", appId, serviceId];
  }

  /** The base name of an app's directory is the app id. */
  lemma AppDirBase(appId: string)
    requires IsSegment(appId)
    ensures Base(AppDirKey(appId)) == appId
  {
    KeyUnderAppDir(appId, "x");
    RootSplit(appId);
    SplitSegment(appId);
    var parts := ["", "loggregator", "services", appId];
    assert Split(AppDirKey(appId)) == parts;
    assert NonEmpty(parts[3..]) == [appId];
    assert NonEmpty(parts[2..]) == ["services", appId];
    assert NonEmpty(parts[1..]) == ["loggregator", "services", appId];
  }
}
