/** main: combi-view (every file overlaid in one full-screen renderer) or multiview (one file per
    tile, rotated by slot), then one camera shared by all renderers and a window sized for them. */
module FiberView {
  import opened Base
  import opened Layout
  import opened Vtk
  import opened Placement
  import opened CameraRig
  import opened Scene

  /** The parsed command line, as far as the modelled logic reads it. */
  datatype Config = Config(
    files: seq<string>,
    size: int,
    angle: real,
    camera: SpecArg,
    scheme: Scheme,
    fiber: bool,
    rotations: bool,
    box: bool,
    multiview: bool)

  /** Every file has a non-empty name, so create_actor binds a reader for each of them. */
  predicate AllNamed(files: seq<string>) {
    forall i :: 0 <= i < |files| ==> |files[i]| > 0
  }

  // ---- combi-view ----

  /** The actors one file contributes to the combi-view renderer: its mesh, then its box. */
  function FileActors(cfg: Config, fname: string): seq<ActorView> {
    if cfg.box then [MeshView(fname, cfg.scheme, cfg.fiber, []), BoxView(Reader(fname), [])]
    else [MeshView(fname, cfg.scheme, cfg.fiber, [])]
  }

  /** The combi-view renderer's actors after the given files, in the order they are added. */
  function CombiActors(cfg: Config, files: seq<string>): seq<ActorView> {
    if files == [] then []
    else CombiActors(cfg, files[..|files| - 1]) + FileActors(cfg, files[|files| - 1])
  }

  /** What combi-view shows, or the error it raises. */
  function CombiPlan(cfg: Config): Result<SceneView> {
    if |cfg.files| > 2 then Failure(CombiViewOverflow)
    else if !AllNamed(cfg.files) then Failure(UnboundReader)
    else match SpecOutcome(cfg.camera)
      case Fail(e) => Failure(e)
      case Pass =>
        match WindowSize(1, cfg.size)
        case Failure(e) => Failure(e)
        case Success(sz) =>
          Success(SceneView(
            [RendererView(Some(GetViewports(1)[0]), Background(cfg.scheme), CombiActors(cfg, cfg.files))],
            [Reset, Reset] + AppliedCalls(cfg.camera, cfg.angle),
            sz.width, sz.height))
  }

  // ---- multiview ----

  /** The slot the k-th actor is rotated with: rotor before its increment. */
  function ActorSlot(cfg: Config, k: int): int {
    if cfg.rotations then k else 0
  }

  /** The slot the k-th box is rotated with: rotor after its increment. */
  function BoxSlot(cfg: Config, k: int): int {
    if cfg.rotations then k + 1 else 0
  }

  /** Tile k is set up without raising. */
  predicate TileOk(cfg: Config, k: int) {
    !cfg.box || 0 <= BoxSlot(cfg, k) <= 3
  }

  /** The error tile k raises, if any: an unnamed file in create_actor, before a box slot that
      transform_multiview rejects. */
  function TileError(cfg: Config, k: nat): Option<Error>
    requires k < |cfg.files|
  {
    if |cfg.files[k]| == 0 then Some(UnboundReader)
    else if !TileOk(cfg, k) then Some(InvalidSlot)
    else None
  }

  /** The error of the first of tiles 0 to n - 1 that raises, in zip order. */
  function FirstTileError(cfg: Config, n: nat): Option<Error>
    requires n <= |cfg.files|
  {
    if n == 0 then None
    else if FirstTileError(cfg, n - 1).Some? then FirstTileError(cfg, n - 1)
    else TileError(cfg, n - 1)
  }

  /** Once a tile has raised, later tiles do not change the error. */
  lemma {:induction false} FirstTileErrorStays(cfg: Config, i: nat, n: nat)
    requires i <= n <= |cfg.files| && FirstTileError(cfg, i).Some?
    ensures FirstTileError(cfg, n) == FirstTileError(cfg, i)
    decreases n - i
  {
    if i < n {
      FirstTileErrorStays(cfg, i, n - 1);
    }
  }

  /** FirstTileError is None exactly when no tile raises; otherwise it is the error of some
      tile all of whose predecessors pass. */
  lemma {:induction false} FirstTileErrorIsFirst(cfg: Config, n: nat)
    requires n <= |cfg.files|
    ensures FirstTileError(cfg, n).None? <==> forall k :: 0 <= k < n ==> TileError(cfg, k).None?
    ensures FirstTileError(cfg, n).Some? ==> exists k :: (0 <= k < n && TileError(cfg, k) == FirstTileError(cfg, n) &&
      forall j :: 0 <= j < k ==> TileError(cfg, j).None?)
  {
    if n > 0 {
      FirstTileErrorIsFirst(cfg, n - 1);
      if FirstTileError(cfg, n - 1).None? && TileError(cfg, n - 1).Some? {
        assert TileError(cfg, n - 1) == FirstTileError(cfg, n);
      }
    }
  }

  /** The number of tiles: zip stops at the shorter of the file list and the viewport list. */
  function TileCount(cfg: Config): nat {
    var vs := GetViewports(|cfg.files|);
    if |cfg.files| <= |vs| then |cfg.files| else |vs|
  }

  /** The actors of tile k: the file's mesh rotated with the actor slot, then its box rotated
      with the box slot. */
  function TileActors(cfg: Config, k: nat): seq<ActorView>
    requires k < |cfg.files|
  {
    var fname := cfg.files[k];
    var mesh := MeshView(fname, cfg.scheme, cfg.fiber, SlotOps(ActorSlot(cfg, k)));
    if cfg.box then [mesh, BoxView(Reader(fname), SlotOps(BoxSlot(cfg, k)))] else [mesh]
  }

  /** The renderer for tile k in viewport v: the file's rotated mesh, then its rotated box. */
  function TileView(cfg: Config, v: Rect, k: nat): RendererView
    requires k < |cfg.files|
  {
    RendererView(Some(v), Background(cfg.scheme), TileActors(cfg, k))
  }

  /** What multiview shows, or the error it raises. */
  function MultiviewPlan(cfg: Config): Result<SceneView> {
    var vs := GetViewports(|cfg.files|);
    var n := TileCount(cfg);
    match FirstTileError(cfg, n)
    case Some(e) => Failure(e)
    case None =>
      if n == 0 then Failure(NoRenderers)
      else match WindowSize(n, cfg.size)
        case Failure(e) => Failure(e)
        case Success(sz) =>
          Success(SceneView(seq(n, k requires 0 <= k < n => TileView(cfg, vs[k], k)), [Reset], sz.width, sz.height))
  }

  /** What a run of main shows, or the error it raises. */
  function Plan(cfg: Config): Result<SceneView> {
    if cfg.multiview then MultiviewPlan(cfg) else CombiPlan(cfg)
  }

  // ---- main ----

  /** One pass of combi-view's file loop: the file's actor, then its box, join the renderer; an
      unnamed file raises in create_actor and adds nothing. */
  method AddFile(r: Renderer, cfg: Config, fname: string) returns (res: Outcome)
    modifies r`actors
    ensures res == if |fname| > 0 then Pass else Fail(UnboundReader)
    ensures ActorViews(r.actors) == old(ActorViews(r.actors)) + (if res.Pass? then FileActors(cfg, fname) else [])
  {
    ghost var before := r.actors;
    var created := CreateActor(fname, cfg.scheme, cfg.fiber);
    if created.Failure? {
      return Fail(created.error);
    }
    var (actor, source) := created.value;
    r.AddActor(actor);
    if cfg.box {
      var bbox := CreateBox(source);
      r.AddActor(bbox);
      assert r.actors == before + [actor, bbox];
    } else {
      assert r.actors == before + [actor];
    }
    return Pass;
  }

  /** Combi-view's file loop: every file's actors join the renderer, in file order; the first
      unnamed file raises, after the files before it have added theirs. */
  method AddFiles(r: Renderer, cfg: Config) returns (res: Outcome)
    modifies r`actors
    ensures res == if AllNamed(cfg.files) then Pass else Fail(UnboundReader)
    ensures res.Pass? ==> ActorViews(r.actors) == old(ActorViews(r.actors)) + CombiActors(cfg, cfg.files)
    ensures res.Fail? ==> exists j :: (0 <= j < |cfg.files| && |cfg.files[j]| == 0 && AllNamed(cfg.files[..j]) &&
      ActorViews(r.actors) == old(ActorViews(r.actors)) + CombiActors(cfg, cfg.files[..j]))
  {
    ghost var before := ActorViews(r.actors);
    var i := 0;
    while i < |cfg.files|
      invariant 0 <= i <= |cfg.files|
      invariant forall k :: 0 <= k < i ==> |cfg.files[k]| > 0
      invariant ActorViews(r.actors) == before + CombiActors(cfg, cfg.files[..i])
    {
      var added := AddFile(r, cfg, cfg.files[i]);
      if added.Fail? {
        assert AllNamed(cfg.files[..i]);
        return added;
      }
      assert cfg.files[..i + 1][..i] == cfg.files[..i];
      i := i + 1;
    }
    assert cfg.files[..i] == cfg.files;
    return Pass;
  }

  /** The combi-view branch of main: one renderer over the full viewport holding every file's
      actor (and box), none of them rotated, then the camera reset and the spec applied to it. */
  method BuildCombiView(cfg: Config) returns (res: Result<Renderer>)
    requires !cfg.multiview
    ensures res.Failure? <==> CombiPlan(cfg).Failure?
    ensures res.Failure? ==> res.error == CombiPlan(cfg).error
    ensures res.Success? ==> fresh(res.value) && fresh(res.value.camera)
    ensures res.Success? ==> res.value.View() == CombiPlan(cfg).value.renderers[0]
    ensures res.Success? ==> res.value.camera.ops == CombiPlan(cfg).value.cameraOps
  {
    if |cfg.files| > 2 {
      return Failure(CombiViewOverflow);
    }
    // main also sets args.rotations for two files here, but nothing later in combi-view reads it.
    var viewports := GetViewports(1);
    var r := CreateRenderer(Some(viewports[0]), None, cfg.scheme);
    var added := AddFiles(r, cfg);
    if added.Fail? {
      return Failure(added.error);
    }
    r.ResetCamera();
    var camera := r.camera;
    var ok := TransformCamera(camera, cfg.camera, cfg.angle);
    if ok.Fail? {
      return Failure(ok.error);
    }
    return Success(r);
  }

  /** One pass of multiview's zip loop for file k and viewport v: an unnamed file raises in
      create_actor; otherwise the actor is rotated with rotor, rotor advances when rotations are
      on, and the box is rotated with the new rotor. */
  method SetUpTile(cfg: Config, v: Rect, k: nat, rotor: int) returns (res: Result<Renderer>, rotor': int)
    requires k < |cfg.files| && k < 4 && rotor == ActorSlot(cfg, k)
    ensures res.Failure? <==> TileError(cfg, k).Some?
    ensures res.Failure? ==> res.error == TileError(cfg, k).value
    ensures res.Success? ==> rotor' == ActorSlot(cfg, k + 1)
    ensures res.Success? ==> fresh(res.value) && fresh(res.value.camera)
    ensures res.Success? ==> res.value.View() == TileView(cfg, v, k) && res.value.camera.ops == [Reset]
  {
    rotor' := rotor;
    var created := CreateActor(cfg.files[k], cfg.scheme, cfg.fiber);
    if created.Failure? {
      return Failure(created.error), rotor';
    }
    var (actor, source) := created.value;
    // rotor <= k < 4 here, so transform_multiview never raises for an actor.
    var ok := TransformMultiview(actor, rotor');
    assert ok == Pass;
    ghost var mesh := actor.View();
    assert mesh == TileActors(cfg, k)[0];
    if cfg.rotations {
      rotor' := rotor' + 1;
    }
    var r := CreateRenderer(Some(v), Some(actor), cfg.scheme);
    if cfg.box {
      var bbox := CreateBox(source);
      var boxed := TransformMultiview(bbox, rotor');
      if boxed.Fail? {
        return Failure(boxed.error), rotor';
      }
      assert bbox.ops == SlotOps(BoxSlot(cfg, k));
      ghost var outline := bbox.View();
      assert outline == TileActors(cfg, k)[1];
      r.AddActor(bbox);
      assert r.actors == [actor, bbox];
      assert ActorViews(r.actors) == [mesh, outline];
    } else {
      assert ActorViews(r.actors) == [mesh];
    }
    assert ActorViews(r.actors) == TileActors(cfg, k);
    return Success(r), rotor';
  }

  /** The zip loop of multiview over the first n files and viewports. */
  method BuildTiles(cfg: Config, viewports: seq<Rect>, n: nat) returns (res: Result<seq<Renderer>>)
    requires n <= |viewports| && n <= |cfg.files| && n <= 4
    ensures res.Failure? <==> FirstTileError(cfg, n).Some?
    ensures res.Failure? ==> res.error == FirstTileError(cfg, n).value
    ensures res.Success? ==> var rs := res.value;
      |rs| == n &&
      (forall k :: 0 <= k < n ==> fresh(rs[k]) && rs[k].View() == TileView(cfg, viewports[k], k)) &&
      (forall k, l :: 0 <= k < l < n ==> rs[k] != rs[l]) &&
      (n > 0 ==> rs[0].camera.ops == [Reset])
  {
    var renderers: seq<Renderer> := [];
    var rotor := 0;
    var i := 0;
    while i < n
      invariant 0 <= i <= n && |renderers| == i
      invariant rotor == ActorSlot(cfg, i)
      invariant FirstTileError(cfg, i).None?
      invariant forall k :: 0 <= k < i ==> fresh(renderers[k]) && renderers[k].View() == TileView(cfg, viewports[k], k)
      invariant forall k, l :: 0 <= k < l < i ==> renderers[k] != renderers[l]
      invariant i > 0 ==> renderers[0].camera.ops == [Reset]
    {
      var tile;
      tile, rotor := SetUpTile(cfg, viewports[i], i, rotor);
      if tile.Failure? {
        FirstTileErrorStays(cfg, i + 1, n);
        return Failure(tile.error);
      }
      renderers := renderers + [tile.value];
      i := i + 1;
    }
    return Success(renderers);
  }

  /** The multiview branch of main: one tile per file, in reading order, each with its own
      renderer and its actors turned by their slots. */
  method BuildMultiview(cfg: Config) returns (res: Result<seq<Renderer>>)
    requires cfg.multiview
    ensures res.Failure? <==> FirstTileError(cfg, TileCount(cfg)).Some?
    ensures res.Failure? ==> res.error == FirstTileError(cfg, TileCount(cfg)).value
    ensures res.Success? ==> var rs := res.value;
      |rs| == TileCount(cfg) &&
      (forall k :: 0 <= k < |rs| ==> fresh(rs[k]) && rs[k].View() == TileView(cfg, GetViewports(|cfg.files|)[k], k)) &&
      (forall k, l :: 0 <= k < l < |rs| ==> rs[k] != rs[l]) &&
      (|rs| > 0 ==> rs[0].camera.ops == [Reset])
  {
    res := BuildTiles(cfg, GetViewports(|cfg.files|), TileCount(cfg));
  }

  /** Hands renderers[0]'s camera object to every later renderer; nothing else changes. */
  method ShareCamera(renderers: seq<Renderer>)
    requires |renderers| > 0
    requires forall k, l :: 0 <= k < l < |renderers| ==> renderers[k] != renderers[l]
    modifies set r | r in renderers
    ensures forall k :: 0 <= k < |renderers| ==> renderers[k].camera == old(renderers[0].camera)
    ensures forall k :: 0 <= k < |renderers| ==> renderers[k].View() == old(renderers[k].View())
  {
    var camera := renderers[0].camera;
    var j := 1;
    while j < |renderers|
      invariant 1 <= j <= |renderers|
      invariant forall k :: 0 <= k < j ==> renderers[k].camera == camera
      invariant forall k :: 0 <= k < |renderers| ==> renderers[k].View() == old(renderers[k].View())
    {
      renderers[j].SetActiveCamera(camera);
      j := j + 1;
    }
  }

  /** main, up to the output step: the error cases are those of Plan, and on success the window
      shows exactly Plan's scene through distinct renderers that all hold one camera object. */
  method Run(cfg: Config) returns (res: Result<Window>)
    ensures res.Failure? <==> Plan(cfg).Failure?
    ensures res.Failure? ==> res.error == Plan(cfg).error
    ensures res.Success? ==> fresh(res.value)
    ensures res.Success? ==> var w, p := res.value, Plan(cfg).value;
      |w.renderers| == |p.renderers| > 0 &&
      (forall k :: 0 <= k < |w.renderers| ==> w.renderers[k].View() == p.renderers[k]) &&
      (forall k :: 0 <= k < |w.renderers| ==> w.renderers[k].camera == w.renderers[0].camera) &&
      (forall k, l :: 0 <= k < l < |w.renderers| ==> w.renderers[k] != w.renderers[l]) &&
      w.renderers[0].camera.ops == p.cameraOps && w.width == p.width && w.height == p.height
  {
    var renderers: seq<Renderer>;
    if !cfg.multiview {
      var built := BuildCombiView(cfg);
      if built.Failure? {
        return Failure(built.error);
      }
      renderers := [built.value];
    } else {
      var built := BuildMultiview(cfg);
      if built.Failure? {
        return Failure(built.error);
      }
      renderers := built.value;
    }
    if |renderers| == 0 {
      return Failure(NoRenderers);
    }
    ShareCamera(renderers);
    res := CreateScene(renderers, cfg.size);
  }
}

/** Properties of what main shows, stated on Plan. */
module FiberViewProperties {
  import opened Base
  import opened Layout
  import opened Vtk
  import opened Placement
  import opened CameraRig
  import opened Scene
  import opened FiberView

  /** Where file i's mesh sits among the combi-view actors: every file before it added one
      actor, or two with boxes. */
  function MeshIndex(cfg: Config, i: int): int {
    if cfg.box then 2 * i else i
  }

  /** In combi-view every file contributes its mesh at MeshIndex and, with boxes, its outline
      right after it; there are no other actors, and none is rotated. */
  lemma {:induction false} CombiActorsLayout(cfg: Config, files: seq<string>)
    ensures var acts := CombiActors(cfg, files);
      |acts| == MeshIndex(cfg, |files|) &&
      (forall i :: 0 <= i < |files| ==> acts[MeshIndex(cfg, i)] == MeshView(files[i], cfg.scheme, cfg.fiber, [])) &&
      (cfg.box ==> forall i :: 0 <= i < |files| ==> acts[2 * i + 1] == BoxView(Reader(files[i]), [])) &&
      (forall j :: 0 <= j < |acts| ==> acts[j].ops == [])
  {
    if files != [] {
      var init := files[..|files| - 1];
      CombiActorsLayout(cfg, init);
      var acts := CombiActors(cfg, files);
      var last := FileActors(cfg, files[|files| - 1]);
      assert acts == CombiActors(cfg, init) + last;
      forall i | 0 <= i < |files|
        ensures acts[MeshIndex(cfg, i)] == MeshView(files[i], cfg.scheme, cfg.fiber, [])
        ensures cfg.box ==> acts[2 * i + 1] == BoxView(Reader(files[i]), [])
      {
        if i < |init| {
          assert files[i] == init[i];
        }
      }
    }
  }

  /** Combi-view: more than two files raise before anything is built, then an unnamed file raises
      in create_actor, then a bad camera spec; otherwise there is one full-screen renderer holding each file's unrotated actor (and box), its camera is reset
      twice and then given the spec's calls, and the window is one tile. */
  lemma CombiView(cfg: Config)
    requires !cfg.multiview
    ensures |cfg.files| > 2 ==> Plan(cfg) == Failure(CombiViewOverflow)
    ensures Plan(cfg).Success? <==> |cfg.files| <= 2 && AllNamed(cfg.files) && SpecOutcome(cfg.camera) == Pass
    ensures |cfg.files| <= 2 && !AllNamed(cfg.files) ==> Plan(cfg) == Failure(UnboundReader)
    ensures Plan(cfg).Failure? && |cfg.files| <= 2 && AllNamed(cfg.files) ==> Fail(Plan(cfg).error) == SpecOutcome(cfg.camera)
    ensures Plan(cfg).Success? ==> var p := Plan(cfg).value;
      |p.renderers| == 1 && p.renderers[0].viewport == Some(Rect(0.0, 0.0, 1.0, 1.0)) &&
      |p.renderers[0].actors| == MeshIndex(cfg, |cfg.files|) &&
      (forall i :: 0 <= i < |cfg.files| ==>
        p.renderers[0].actors[MeshIndex(cfg, i)] == MeshView(cfg.files[i], cfg.scheme, cfg.fiber, [])) &&
      (forall j :: 0 <= j < |p.renderers[0].actors| ==> p.renderers[0].actors[j].ops == []) &&
      p.cameraOps == [Reset, Reset] + AppliedCalls(cfg.camera, cfg.angle) &&
      p.width == cfg.size && p.height == cfg.size
  {
    CombiActorsLayout(cfg, cfg.files);
  }

  /** Multiview succeeds exactly for one to four named files, except four files with both
      rotations and boxes, whose fourth box gets slot 4 and raises; an unnamed file among the
      tiles raises first, since no box before the fourth can fail; more than four files leave
      the zip empty and main fails on renderers[0]. */
  lemma MultiviewOutcome(cfg: Config)
    requires cfg.multiview
    ensures Plan(cfg).Success? <==>
      1 <= |cfg.files| <= 4 && AllNamed(cfg.files) && !(cfg.rotations && cfg.box && |cfg.files| == 4)
    ensures |cfg.files| == 0 || |cfg.files| > 4 ==> Plan(cfg) == Failure(NoRenderers)
    ensures 1 <= |cfg.files| <= 4 && !AllNamed(cfg.files) ==> Plan(cfg) == Failure(UnboundReader)
    ensures AllNamed(cfg.files) && cfg.rotations && cfg.box && |cfg.files| == 4 ==> Plan(cfg) == Failure(InvalidSlot)
  {
    var n := TileCount(cfg);
    FirstTileErrorIsFirst(cfg, n);
    if 1 <= |cfg.files| <= 4 {
      assert n == |cfg.files|;
      if !AllNamed(cfg.files) {
        var u :| 0 <= u < n && |cfg.files[u]| == 0;
        assert TileError(cfg, u).Some?;
        var k :| 0 <= k < n && TileError(cfg, k) == FirstTileError(cfg, n) &&
          forall j :: 0 <= j < k ==> TileError(cfg, j).None?;
        assert k <= u;
        assert |cfg.files[k]| == 0 || TileOk(cfg, k);
      } else if cfg.rotations && cfg.box && n == 4 {
        assert TileError(cfg, 3).Some?;
      } else {
        assert forall k :: 0 <= k < n ==> TileError(cfg, k).None?;
      }
    }
  }

  /** Tile errors do not read the camera argument or the angle. */
  lemma {:induction false} FirstTileErrorIgnoresCamera(cfg: Config, spec: SpecArg, angle: real, n: nat)
    requires n <= |cfg.files|
    ensures FirstTileError(cfg, n) == FirstTileError(cfg.(camera := spec, angle := angle), n)
  {
    if n > 0 {
      FirstTileErrorIgnoresCamera(cfg, spec, angle, n - 1);
    }
  }

  /** Multiview tile k: file k in viewport k, its actor rotated with slot k when rotations are on
      and slot 0 otherwise, its box with slot k + 1 or 0; the shared camera is only reset, so
      the camera spec has no effect, and the window is sized for the tile count. */
  lemma MultiviewTile(cfg: Config, k: nat)
    requires cfg.multiview && Plan(cfg).Success? && k < |cfg.files|
    ensures var p := Plan(cfg).value; var t := p.renderers[k];
      |p.renderers| == |cfg.files| &&
      t.viewport == Some(GetViewports(|cfg.files|)[k]) &&
      t.background == Background(cfg.scheme) &&
      |t.actors| == (if cfg.box then 2 else 1) &&
      t.actors[0] == MeshView(cfg.files[k], cfg.scheme, cfg.fiber, SlotOps(if cfg.rotations then k else 0)) &&
      (cfg.box ==> t.actors[1] == BoxView(Reader(cfg.files[k]), SlotOps(if cfg.rotations then k + 1 else 0))) &&
      p.cameraOps == [Reset] &&
      Success(Size(p.width, p.height)) == WindowSize(|cfg.files|, cfg.size)
  {
    MultiviewOutcome(cfg);
  }

  /** With rotations on, the tiles show their files in four different poses, and each box is
      posed like the next tile's actor rather than its own; with rotations off every actor and
      every box is turned -90 degrees about Y. */
  lemma MultiviewPoses(cfg: Config, k: nat, l: nat)
    requires cfg.multiview && Plan(cfg).Success? && k < l < |cfg.files|
    ensures var rs := Plan(cfg).value.renderers;
      (cfg.rotations ==> rs[k].actors[0].ops != rs[l].actors[0].ops) &&
      (cfg.rotations && cfg.box ==> rs[k].actors[1].ops == rs[k + 1].actors[0].ops != rs[k].actors[0].ops) &&
      (!cfg.rotations ==> rs[k].actors[0].ops == [RotateY(-90.0)] &&
                          (cfg.box ==> rs[k].actors[1].ops == [RotateY(-90.0)]))
  {
    MultiviewTile(cfg, k);
    MultiviewTile(cfg, l);
    MultiviewTile(cfg, k + 1);
    if cfg.rotations {
      SlotsDistinct(k, l);
      SlotsDistinct(k, k + 1);
    }
  }

  /** Without rotations every tile, the last one included, shows its actor and its box turned
      -90 degrees about Y. */
  lemma PosesWithoutRotations(cfg: Config, k: nat)
    requires cfg.multiview && Plan(cfg).Success? && k < |cfg.files| && !cfg.rotations
    ensures var t := Plan(cfg).value.renderers[k];
      t.actors[0].ops == [RotateY(-90.0)] && (cfg.box ==> t.actors[1].ops == [RotateY(-90.0)])
  {
    MultiviewTile(cfg, k);
  }

  /** The camera argument and angle have no effect in multiview. */
  lemma MultiviewIgnoresCamera(cfg: Config, spec: SpecArg, angle: real)
    requires cfg.multiview
    ensures Plan(cfg) == Plan(cfg.(camera := spec, angle := angle))
  {
    var other := cfg.(camera := spec, angle := angle);
    assert TileCount(cfg) == TileCount(other);
    FirstTileErrorIgnoresCamera(cfg, spec, angle, TileCount(cfg));
    if Plan(cfg).Success? {
      var n := TileCount(cfg);
      var vs := GetViewports(|cfg.files|);
      assert forall k :: 0 <= k < n ==> TileView(cfg, vs[k], k) == TileView(other, vs[k], k);
      assert Plan(cfg).value.renderers == Plan(other).value.renderers;
    }
  }

  /** The list of actors does not depend on --rotations in combi-view. */
  lemma {:induction false} CombiActorsIgnoreRotations(cfg: Config, files: seq<string>, rotations: bool)
    ensures CombiActors(cfg, files) == CombiActors(cfg.(rotations := rotations), files)
  {
    if files != [] {
      CombiActorsIgnoreRotations(cfg, files[..|files| - 1], rotations);
    }
  }

  /** --rotations has no effect in combi-view, even though main sets it for two files. */
  lemma CombiIgnoresRotations(cfg: Config, rotations: bool)
    requires !cfg.multiview
    ensures Plan(cfg) == Plan(cfg.(rotations := rotations))
  {
    CombiActorsIgnoreRotations(cfg, cfg.files, rotations);
  }
}
