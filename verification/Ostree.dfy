/** internal/ostree: the two questions asked of one deployment list. */
module Ostree {
  import opened FileSystem

  datatype Deployment = Deployment(id: string, booted: bool)

  function Ids(deployments: seq<Deployment>): seq<string> {
    seq(|deployments|, i requires 0 <= i < |deployments| => deployments[i].id)
  }

  /** The booted deployment, on an ostree host; `status` is None when rpm-ostree gives no list. */
  method BootedDeploymentID(isOSTree: bool, status: Option<seq<Deployment>>) returns (r: Outcome, id: string)
    ensures !r.Crash?
    ensures r.Err? <==> isOSTree && (status.None? || forall d :: d in status.value ==> !d.booted)
    ensures r.Ok? && !isOSTree ==> id == ""
    ensures r.Ok? && isOSTree ==>
              exists i :: 0 <= i < |status.value| && status.value[i] == Deployment(id, true)
                          && forall j :: 0 <= j < i ==> !status.value[j].booted
  {
    if !isOSTree {
      return Ok, "";
    }
    if status.None? {
      return Err, "";
    }
    for i := 0 to |status.value|
      invariant forall j :: 0 <= j < i ==> !status.value[j].booted
    {
      if status.value[i].booted {
        assert status.value[i] == Deployment(status.value[i].id, true);
        return Ok, status.value[i].id;
      }
    }
    return Err, "";
  }

  /** Every deployment id of the list, in its order. */
  method AllDeploymentIDs(isOSTree: bool, status: Option<seq<Deployment>>) returns (r: Outcome, ids: seq<string>)
    ensures !r.Crash?
    ensures r.Err? <==> isOSTree && status.None?
    ensures r.Ok? ==> ids == if isOSTree then Ids(status.value) else []
    ensures r.Ok? && isOSTree ==>
              |ids| == |status.value| && forall i :: 0 <= i < |ids| ==> ids[i] == status.value[i].id
  {
    if !isOSTree {
      return Ok, [];
    }
    if status.None? {
      return Err, [];
    }
    ids := [];
    for i := 0 to |status.value|
      invariant ids == Ids(status.value[..i])
    {
      ids := ids + [status.value[i].id];
      assert status.value[..i + 1] == status.value[..i] + [status.value[i]];
    }
    assert status.value[..|status.value|] == status.value;
    r := Ok;
  }
}
