/** Building the scene's objects: actors and their outline boxes (create_actor, create_box),
    renderers (create_renderer), and the window with its size (create_scene). */
module Scene {
  import opened Base
  import opened Layout
  import opened Vtk

  // ---- colour schemes ----

  /** The --color-scheme choices "default", "bw" and "wb". */
  datatype Scheme = Default | BW | WB

  const White := Rgb(1.0, 1.0, 1.0)
  const Black := Rgb(0.0, 0.0, 0.0)
  const Ambient := Rgb(0.6, 0.6, 0.6)

  /** The background colour of a renderer for a colour scheme name. */
  function Background(scheme: Scheme): Rgb {
    if scheme == BW then Black
    else if scheme == WB then White
    else Rgb(0.1, 0.2, 0.31)
  }

  /** The diffuse colour of a mesh actor: dark only for WB without fibres. */
  function DiffuseColor(scheme: Scheme, fiber: bool): Rgb {
    if scheme == WB && !fiber then Rgb(0.1, 0.1, 0.1) else Rgb(0.9, 0.9, 0.9)
  }

  function Brightness(c: Rgb): real { (c.r + c.g + c.b) / 3.0 }

  /** BW is the only scheme with a black background and WB the only one with a white one;
      mesh actors are always grey, and dark exactly under WB without fibres. */
  lemma SchemeCases(scheme: Scheme, fiber: bool)
    ensures Background(scheme) == Black <==> scheme == BW
    ensures Background(scheme) == White <==> scheme == WB
    ensures var d := DiffuseColor(scheme, fiber); d.r == d.g == d.b
    ensures Brightness(DiffuseColor(scheme, fiber)) < 0.5 <==> scheme == WB && !fiber
  {
  }

  // ---- actors ----

  /** The source create_actor binds, as written: only a non-empty name binds the reader, and the
      function then reads the reader unconditionally, so "" ends in UnboundLocalError. */
  function ActorSourceAsWritten(fname: string): (r: Result<Source>)
    ensures r.Success? <==> |fname| > 0
  {
    if |fname| > 0 then Success(Reader(fname)) else Failure(UnboundReader)
  }

  /** The testing path as written can never finish: an empty name always raises. */
  lemma EmptyNameUnbound()
    ensures ActorSourceAsWritten("") == Failure(UnboundReader)
  {
  }

  /** The source create_actor is evidently meant to use: the file reader for a name, the test
      cube when there is none. */
  function ActorSource(fname: string): (s: Source)
    ensures s == Cube <==> |fname| == 0
  {
    if |fname| > 0 then Reader(fname) else Cube
  }

  /** The corrected source is total and agrees with the code wherever the code succeeds. */
  lemma ActorSourceTotal(fname: string)
    ensures ActorSourceAsWritten(fname).Success? ==> ActorSourceAsWritten(fname).value == ActorSource(fname)
    ensures ActorSource(fname).Reader? ==> ActorSource(fname).fname == fname
  {
  }

  /** The recorded state of a mesh actor read from a file after the rotations ops. */
  function MeshView(fname: string, scheme: Scheme, fiber: bool, ops: seq<ActorOp>): ActorView {
    ActorView(Mesh(Reader(fname), fiber), Some(Ambient), Some(DiffuseColor(scheme, fiber)), ops)
  }

  /** The recorded state of an outline box around a source after the rotations ops. */
  function BoxView(source: Source, ops: seq<ActorOp>): ActorView {
    ActorView(Outline(source), None, None, ops)
  }

  /** create_actor as written: for a named file, a new mesh actor, tube-filtered when fiber is
      set, with its colours set, together with the file's reader; an empty name never binds the
      reader and raises (at the tube filter with fibres, at the return without). */
  method CreateActor(fname: string, scheme: Scheme, fiber: bool) returns (res: Result<(Actor, Source)>)
    ensures res.Failure? <==> ActorSourceAsWritten(fname).Failure?
    ensures res.Failure? ==> res.error == UnboundReader
    ensures res.Success? ==> fresh(res.value.0) && res.value.1 == ActorSourceAsWritten(fname).value
    ensures res.Success? ==> res.value.0.View() == MeshView(fname, scheme, fiber, [])
  {
    var source := ActorSourceAsWritten(fname);
    if source.Failure? {
      return Failure(source.error);
    }
    var actor := new Actor(Mesh(source.value, fiber));
    actor.SetAmbientColor(Ambient);
    actor.SetDiffuseColor(DiffuseColor(scheme, fiber));
    return Success((actor, source.value));
  }

  /** A new actor drawing the bounding-box outline of a source. */
  method CreateBox(source: Source) returns (box: Actor)
    ensures fresh(box)
    ensures box.View() == BoxView(source, [])
  {
    box := new Actor(Outline(source));
  }

  // ---- renderers ----

  /** A new renderer with the scheme's background, the viewport if one is given, the actor if
      one is given, and its own camera reset once. */
  method CreateRenderer(viewport: Option<Rect>, actor: Option<Actor>, scheme: Scheme) returns (r: Renderer)
    ensures fresh(r) && fresh(r.camera)
    ensures r.viewport == viewport && r.background == Background(scheme)
    ensures r.actors == if actor.Some? then [actor.value] else []
    ensures r.camera.ops == [Reset]
  {
    r := new Renderer();
    r.SetBackground(Background(scheme));
    if viewport.Some? {
      r.SetViewport(viewport.value);
    }
    if actor.Some? {
      r.AddActor(actor.value);
    }
    r.ResetCamera();
  }

  // ---- the window ----

  datatype Size = Size(width: int, height: int)

  /** The window size for n renderers of the given tile size; more than four raises. */
  function WindowSize(n: nat, size: int): (r: Result<Size>)
    ensures r.Success? <==> n <= 4
    ensures r.Failure? ==> r.error == TooManyRenderers
  {
    if n < 4 then Success(Size(size * n, size))
    else if n == 4 then Success(Size(size * 2, size * 2))
    else Failure(TooManyRenderers)
  }

  /** The window is size pixels wide per column of the layout and size pixels high per row. */
  lemma WindowGrid(n: int, size: int)
    requires 1 <= n <= 4
    ensures var vs := GetViewports(n);
      WindowSize(n, size) == Success(Size(size * Columns(vs), size * Rows(vs)))
  {
    GridShape(n);
  }

  /** The window fits the layout: every tile of the n-tile layout is exactly size pixels high, and
      exactly size pixels wide except for the three strips, whose table widths make them differ
      from size by at most 0.000002 * |size|. An empty window is 0 pixels wide. */
  lemma TilesMapToPixels(n: int, size: int)
    requires 0 <= n <= 4
    ensures n == 0 ==> WindowSize(0, size) == Success(Size(0, size))
    ensures n >= 1 ==> var w := WindowSize(n, size).value; var vs := GetViewports(n);
      forall i :: 0 <= i < n ==>
        (vs[i].y1 - vs[i].y0) * (w.height as real) == size as real &&
        (n != 3 ==> Width(vs[i]) * (w.width as real) == size as real) &&
        (n == 3 ==> -0.000002 * Abs(size) <= Width(vs[i]) * (w.width as real) - size as real <= 0.000002 * Abs(size))
  {
    if n == 3 {
      var w := WindowSize(n, size).value;
      assert w.width as real == 3.0 * size as real;
    } else if n == 4 {
      var w := WindowSize(n, size).value;
      assert w.width as real == 2.0 * size as real;
      assert w.height as real == 2.0 * size as real;
    } else if n == 2 {
      var w := WindowSize(n, size).value;
      assert w.width as real == 2.0 * size as real;
    }
  }

  function Abs(x: int): real { if x < 0 then (-x) as real else x as real }

  /** Sizes a new window from the renderer count and adds the renderers in input order; more
      than four renderers raise before any window exists. */
  method CreateScene(renderers: seq<Renderer>, size: int) returns (res: Result<Window>)
    ensures res.Failure? <==> |renderers| > 4
    ensures res.Failure? ==> res.error == TooManyRenderers
    ensures res.Success? ==> fresh(res.value) && res.value.renderers == renderers
    ensures res.Success? ==> WindowSize(|renderers|, size) == Success(Size(res.value.width, res.value.height))
  {
    var sized := WindowSize(|renderers|, size);
    if sized.Failure? {
      return Failure(sized.error);
    }
    var sz := sized.value;
    var window := new Window();
    window.SetSize(sz.width, sz.height);
    for i := 0 to |renderers|
      invariant window.renderers == renderers[..i]
      invariant window.width == sz.width && window.height == sz.height
    {
      window.AddRenderer(renderers[i]);
    }
    return Success(window);
  }
}
