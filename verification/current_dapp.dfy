/** The dapp box's `useCurrentDapp`: the first segment of the location's path
    names the dapp on show, `cross-space` by default. */
module CurrentDapp {
  import opened Common

  /** `s.split(sep)` for a one-character separator: the pieces between the
      separators, empty ones included, so there is always at least one. */
  function Split(s: string, sep: char): (parts: seq<string>)
    ensures |parts| >= 1
    ensures forall i, j :: 0 <= i < |parts| && 0 <= j < |parts[i]| ==> parts[i][j] != sep
    decreases |s|
  {
    if s == [] then [""]
    else if s[0] == sep then [""] + Split(s[1..], sep)
    else
      var rest := Split(s[1..], sep);
      [[s[0]] + rest[0]] + rest[1..]
  }

  /** `parts.join(sep)`. */
  function Join(parts: seq<string>, sep: char): string
    requires |parts| >= 1
    decreases |parts|
  {
    if |parts| == 1 then parts[0] else parts[0] + [sep] + Join(parts[1..], sep)
  }

  /** Joining the pieces again gives back the string that was split. */
  lemma {:induction false} JoinSplit(s: string, sep: char)
    ensures Join(Split(s, sep), sep) == s
    decreases |s|
  {
    if s == [] {
    } else if s[0] == sep {
      JoinSplit(s[1..], sep);
      assert Split(s, sep)[1..] == Split(s[1..], sep);
    } else {
      JoinSplit(s[1..], sep);
      var rest := Split(s[1..], sep);
      var parts := Split(s, sep);
      assert parts[1..] == rest[1..];
      if |rest| == 1 {
        assert Join(parts, sep) == [s[0]] + rest[0];
      } else {
        assert Join(parts, sep) == [s[0]] + rest[0] + [sep] + Join(rest[1..], sep);
      }
    }
  }

  /** Splitting a string that starts with a piece free of separators puts
      that piece at the head of the first part. */
  lemma {:induction false} SplitAfterSegment(seg: string, rest: string, sep: char)
    requires forall i :: 0 <= i < |seg| ==> seg[i] != sep
    ensures Split(seg + rest, sep) == [seg + Split(rest, sep)[0]] + Split(rest, sep)[1..]
    decreases |seg|
  {
    if seg != [] {
      assert (seg + rest)[1..] == seg[1..] + rest;
      SplitAfterSegment(seg[1..], rest, sep);
      assert [seg[0]] + (seg[1..] + Split(rest, sep)[0]) == seg + Split(rest, sep)[0];
    } else {
      var parts := Split(rest, sep);
      assert seg + rest == rest;
      assert seg + parts[0] == parts[0];
      assert [parts[0]] + parts[1..] == parts;
    }
  }

  const DEFAULT_DAPP_PATH: string := "cross-space"

  /** The key of the dapp on show: the second piece of the path split on
      '/', or the default when that piece is missing or empty. */
  function CurrentDappPath(pathname: string): (key: string)
    ensures key != ""
    ensures var parts := Split(pathname, '/');
      key == (if |parts| > 1 && parts[1] != "" then parts[1] else DEFAULT_DAPP_PATH)
    ensures forall i :: 0 <= i < |key| ==> key[i] != '/' || key == DEFAULT_DAPP_PATH
  {
    var parts := Split(pathname, '/');
    if |parts| > 1 && parts[1] != "" then parts[1] else DEFAULT_DAPP_PATH
  }

  /** Only the first segment counts: `"/" + seg` followed by nothing or by
      more segments names `seg`, or the default when `seg` is empty. */
  lemma FirstSegmentDecides(seg: string, rest: string)
    requires forall i :: 0 <= i < |seg| ==> seg[i] != '/'
    requires rest == "" || rest[0] == '/'
    ensures CurrentDappPath("/" + seg + rest) == if seg == "" then DEFAULT_DAPP_PATH else seg
  {
    var p := "/" + seg + rest;
    assert p[0] == '/' && p[1..] == seg + rest;
    SplitAfterSegment(seg, rest, '/');
    if rest == "" {
      assert Split(rest, '/') == [""];
    } else {
      assert Split(rest, '/') == [""] + Split(rest[1..], '/');
    }
  }

  /** The empty path and the root both show the default dapp. */
  lemma RootShowsDefault()
    ensures CurrentDappPath("") == DEFAULT_DAPP_PATH
    ensures CurrentDappPath("/") == DEFAULT_DAPP_PATH
  {
    FirstSegmentDecides("", "");
    assert "/" + "" + "" == "/";
  }

  /** Deeper paths name the same dapp as their first segment alone. */
  lemma DeepPathSameDapp()
    ensures CurrentDappPath("/payment/x/y") == CurrentDappPath("/payment") == "payment"
  {
    FirstSegmentDecides("payment", "/x/y");
    assert "/" + "payment" + "/x/y" == "/payment/x/y";
    FirstSegmentDecides("payment", "");
    assert "/" + "payment" + "" == "/payment";
  }

  /** A dapp of the box, as far as routing needs it. */
  datatype Dapp = Dapp(path: string, name: string)

  /** `Array.prototype.find` by path: the first dapp in list order whose
      path is `key`, or none at all. */
  function FindByPath(dapps: seq<Dapp>, key: string): (r: Option<nat>)
    ensures r.Some? ==> r.value < |dapps| && dapps[r.value].path == key
    ensures r.Some? ==> forall j :: 0 <= j < r.value ==> dapps[j].path != key
    ensures r.None? <==> forall j :: 0 <= j < |dapps| ==> dapps[j].path != key
    decreases |dapps|
  {
    if dapps == [] then None
    else if dapps[0].path == key then Some(0)
    else
      var r := FindByPath(dapps[1..], key);
      if r.Some? then Some(r.value + 1) else None
  }

  /** `useCurrentDapp`: the first dapp in list order that the location
      names. The source asserts one exists; here a location naming no dapp
      gives `None`. */
  function UseCurrentDapp(pathname: string, dapps: seq<Dapp>): (d: Option<Dapp>)
    ensures d.Some? ==> d.value in dapps && d.value.path == CurrentDappPath(pathname)
    ensures d.Some? ==> exists i :: 0 <= i < |dapps| && d.value == dapps[i] &&
                                    forall j :: 0 <= j < i ==> dapps[j].path != CurrentDappPath(pathname)
    ensures d.None? <==> forall j :: 0 <= j < |dapps| ==> dapps[j].path != CurrentDappPath(pathname)
  {
    var i := FindByPath(dapps, CurrentDappPath(pathname));
    if i.Some? then Some(dapps[i.value]) else None
  }
}
