/** The Limelight camera's processing pipelines and their numeric ids. */
module Pipelines {
  import opened Wrappers

  datatype LimelightPipeline = Unknown | DefaultAprilTag | GamePiece {
    function Id(): int
    {
      match this
      case Unknown => -1
      case DefaultAprilTag => 0
      case GamePiece => 1
    }
  }

  /** values(): the constants in declaration order. */
  const VALUES: seq<LimelightPipeline> := [Unknown, DefaultAprilTag, GamePiece]

  /** No two constants share an id. */
  lemma IdsAreDistinct(p: LimelightPipeline, q: LimelightPipeline)
    ensures p.Id() == q.Id() ==> p == q
  {
  }

  /** The first pipeline of `pipelines`, in order, whose id is `id`. */
  function FirstWithId(pipelines: seq<LimelightPipeline>, id: int): (r: Option<LimelightPipeline>)
    ensures r.Some? ==> r.value in pipelines && r.value.Id() == id
    ensures r.None? <==> forall p :: p in pipelines ==> p.Id() != id
  {
    if pipelines == [] then None
    else if pipelines[0].Id() == id then Some(pipelines[0])
    else FirstWithId(pipelines[1..], id)
  }

  /** The search returns the first match: the element at the first index whose id matches. */
  lemma {:induction false} FirstWithIdIsFirst(pipelines: seq<LimelightPipeline>, id: int, k: nat)
    requires k < |pipelines| && pipelines[k].Id() == id
    requires forall j :: 0 <= j < k ==> pipelines[j].Id() != id
    ensures FirstWithId(pipelines, id) == Some(pipelines[k])
  {
    if k > 0 {
      assert pipelines[0].Id() != id;
      FirstWithIdIsFirst(pipelines[1..], id, k - 1);
    }
  }

  /** forId: the first constant with that id, UNKNOWN when none has it. */
  function ForId(id: int): (r: LimelightPipeline)
    ensures -1 <= id <= 1 ==> r.Id() == id
    ensures !(-1 <= id <= 1) ==> r == Unknown
  {
    match FirstWithId(VALUES, id)
    case Some(p) => p
    case None => Unknown
  }

  /** forId inverts id for every constant. */
  lemma ForIdOfId(p: LimelightPipeline)
    ensures ForId(p.Id()) == p
  {
    IdsAreDistinct(ForId(p.Id()), p);
  }
}
