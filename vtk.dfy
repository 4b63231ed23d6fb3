/** Stand-ins for the rendering library's objects. They record the calls the modelled code makes
    on them instead of computing anything: an actor keeps the rotations applied to it, a camera
    the azimuth, elevation, roll and reset calls, a renderer its viewport, background, actors and
    active camera, and a window its size and renderers. */
module Vtk {
  import opened Base
  import opened Layout

  /** A rotation applied to an actor, in degrees. */
  datatype ActorOp = RotateX(degrees: real) | RotateY(degrees: real) | RotateZ(degrees: real)

  /** A call made on a camera. */
  datatype CameraOp = Azimuth(degrees: real) | Elevation(degrees: real) | Roll(degrees: real) | Reset

  /** Where an actor's polygons come from: a legacy mesh file read from disk, or a test cube. */
  datatype Source = Reader(fname: string) | Cube

  /** What an actor draws: a mesh (optionally through the tube filter), or the outline of a source. */
  datatype Geometry = Mesh(source: Source, tube: bool) | Outline(source: Source)

  /** The recorded state of an actor; None stands for a colour the library chooses. */
  datatype ActorView = ActorView(geometry: Geometry, ambient: Option<Rgb>, diffuse: Option<Rgb>, ops: seq<ActorOp>)

  /** The recorded state of a renderer, camera apart. */
  datatype RendererView = RendererView(viewport: Option<Rect>, background: Rgb, actors: seq<ActorView>)

  /** What a finished run shows: the renderers in window order, the calls made on their one shared
      camera, and the window size in pixels. */
  datatype SceneView = SceneView(renderers: seq<RendererView>, cameraOps: seq<CameraOp>, width: int, height: int)

  class Camera {
    var ops: seq<CameraOp>

    constructor ()
      ensures ops == []
    {
      ops := [];
    }

    method Azimuth(angle: real)
      modifies this
      ensures ops == old(ops) + [CameraOp.Azimuth(angle)]
    {
      ops := ops + [CameraOp.Azimuth(angle)];
    }

    method Elevation(angle: real)
      modifies this
      ensures ops == old(ops) + [CameraOp.Elevation(angle)]
    {
      ops := ops + [CameraOp.Elevation(angle)];
    }

    method Roll(angle: real)
      modifies this
      ensures ops == old(ops) + [CameraOp.Roll(angle)]
    {
      ops := ops + [CameraOp.Roll(angle)];
    }
  }

  class Actor {
    var geometry: Geometry
    var ambient: Option<Rgb>
    var diffuse: Option<Rgb>
    var ops: seq<ActorOp>

    constructor (g: Geometry)
      ensures geometry == g && ambient == None && diffuse == None && ops == []
    {
      geometry, ambient, diffuse, ops := g, None, None, [];
    }

    function View(): ActorView
      reads this
    {
      ActorView(geometry, ambient, diffuse, ops)
    }

    method SetAmbientColor(c: Rgb)
      modifies this`ambient
      ensures ambient == Some(c)
    {
      ambient := Some(c);
    }

    method SetDiffuseColor(c: Rgb)
      modifies this`diffuse
      ensures diffuse == Some(c)
    {
      diffuse := Some(c);
    }

    method RotateX(degrees: real)
      modifies this`ops
      ensures ops == old(ops) + [ActorOp.RotateX(degrees)]
    {
      ops := ops + [ActorOp.RotateX(degrees)];
    }

    method RotateY(degrees: real)
      modifies this`ops
      ensures ops == old(ops) + [ActorOp.RotateY(degrees)]
    {
      ops := ops + [ActorOp.RotateY(degrees)];
    }

    method RotateZ(degrees: real)
      modifies this`ops
      ensures ops == old(ops) + [ActorOp.RotateZ(degrees)]
    {
      ops := ops + [ActorOp.RotateZ(degrees)];
    }
  }

  /** The recorded states of a list of actors, in order. */
  function ActorViews(actors: seq<Actor>): (r: seq<ActorView>)
    reads actors
    ensures |r| == |actors|
  {
    seq(|actors|, i requires 0 <= i < |actors| reads actors => actors[i].View())
  }

  class Renderer {
    var viewport: Option<Rect>
    var background: Rgb
    var actors: seq<Actor>
    var camera: Camera

    /** A fresh renderer, with the library's black background and its own fresh camera. */
    constructor ()
      ensures viewport == None && background == Rgb(0.0, 0.0, 0.0) && actors == []
      ensures fresh(camera) && camera.ops == []
    {
      viewport, background, actors := None, Rgb(0.0, 0.0, 0.0), [];
      camera := new Camera();
    }

    function View(): RendererView
      reads this, actors
    {
      RendererView(viewport, background, ActorViews(actors))
    }

    method SetBackground(c: Rgb)
      modifies this`background
      ensures background == c
    {
      background := c;
    }

    method SetViewport(v: Rect)
      modifies this`viewport
      ensures viewport == Some(v)
    {
      viewport := Some(v);
    }

    method AddActor(a: Actor)
      modifies this`actors
      ensures actors == old(actors) + [a]
    {
      actors := actors + [a];
    }

    /** Re-fits the active camera to the actors; recorded as one Reset call on that camera. */
    method ResetCamera()
      modifies camera
      ensures camera.ops == old(camera.ops) + [Reset]
    {
      camera.ops := camera.ops + [Reset];
    }

    method SetActiveCamera(c: Camera)
      modifies this`camera
      ensures camera == c
    {
      camera := c;
    }
  }

  class Window {
    var width: int
    var height: int
    var renderers: seq<Renderer>

    constructor ()
      ensures renderers == []
    {
      width, height, renderers := 0, 0, [];
    }

    method SetSize(w: int, h: int)
      modifies this`width, this`height
      ensures width == w && height == h
    {
      width, height := w, h;
    }

    method AddRenderer(r: Renderer)
      modifies this`renderers
      ensures renderers == old(renderers) + [r]
    {
      renderers := renderers + [r];
    }
  }
}
