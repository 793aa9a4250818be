/// The scene: eight mesh instances, each placed by a matrix composed on a
/// transform stack. A matrix is kept abstractly as the list of transforms
/// applied to the identity, in the order they are applied (glm's translate,
/// scale and rotate each multiply the current matrix on the right).
/// Translations and scale factors are in thousandths.
module Scene {
  import opened Geometry

  datatype Mesh = Merc | F1Generic | Road | Grandstand | Renault

  datatype Op = Translate(offset: Vec3) | Scale(factors: Vec3) | Rotate(degrees: int, axis: Vec3)

  type Matrix = seq<Op>

  const Identity: Matrix := []

  /** A draw call, with the model matrix that was set just before it. */
  datatype Draw = Draw(mesh: Mesh, model: Matrix)

  /** What the scene reads from the simulation: the offsets of the F1 car,
      the Renault and the Merc, and the light intensity. */
  datatype Placement = Placement(f1: Vec3, renault: Vec3, merc: Vec3, light: Vec3)

  const CarScale: Vec3 := Fill(1000)
  const SmallCarScale: Vec3 := Fill(700)
  const RoadScale: Vec3 := Vec3(150000, 100000, 150000)
  const GrandstandScale: Vec3 := Fill(200)

  /** Z offsets of the three road segments. */
  function RoadZ(i: nat): int
    requires i < 3
  {
    [-8000, 10000, 28000][i]
  }

  /** The instances in the order they are drawn. */
  function SceneInstances(p: Placement): (s: seq<Draw>)
    ensures |s| == 8
    ensures [s[0].mesh, s[1].mesh, s[2].mesh, s[3].mesh, s[4].mesh, s[5].mesh, s[6].mesh, s[7].mesh]
         == [F1Generic, Renault, Merc, Road, Road, Road, Grandstand, Grandstand]
    // every instance is a translate then a scale, the first grandstand
    // preceded by a 180 degree turn about Y; no other rotation
    ensures forall i :: 0 <= i < |s| ==>
              |s[i].model| >= 2 && s[i].model[|s[i].model| - 1].Scale? && s[i].model[|s[i].model| - 2].Translate?
    ensures forall i, j :: 0 <= i < |s| && 0 <= j < |s[i].model| ==> (s[i].model[j].Rotate? <==> i == 6 && j == 0)
    ensures s[6].model[0] == Rotate(180, Vec3(0, 1, 0))
    // the cars are placed by the simulation's offsets
    ensures s[0].model[0] == Translate(p.f1) && s[1].model[0] == Translate(p.renault) && s[2].model[0] == Translate(p.merc)
    // the roads: fixed spacing along Z, one common scale
    ensures forall i :: 3 <= i < 6 ==> s[i].model == [Translate(Vec3(0, 0, RoadZ(i - 3))), Scale(RoadScale)]
    // the grandstands share their scale and differ only in Z
    ensures s[6].model[2] == s[7].model[1] == Scale(GrandstandScale)
    ensures s[6].model[1].Translate? && s[7].model[0].Translate?
         && s[6].model[1].offset.(z := 0) == s[7].model[0].offset.(z := 0)
  {
    [ Draw(F1Generic, [Translate(p.f1), Scale(CarScale)]),
      Draw(Renault, [Translate(p.renault), Scale(SmallCarScale)]),
      Draw(Merc, [Translate(p.merc), Scale(SmallCarScale)]),
      Draw(Road, [Translate(Vec3(0, 0, RoadZ(0))), Scale(RoadScale)]),
      Draw(Road, [Translate(Vec3(0, 0, RoadZ(1))), Scale(RoadScale)]),
      Draw(Road, [Translate(Vec3(0, 0, RoadZ(2))), Scale(RoadScale)]),
      Draw(Grandstand, [Rotate(180, Vec3(0, 1, 0)), Translate(Vec3(33500, -6400, -16050)), Scale(GrandstandScale)]),
      Draw(Grandstand, [Translate(Vec3(33500, -6400, 15780)), Scale(GrandstandScale)]) ]
  }

  /** A stack of matrices whose top is the current transform. */
  class TransformStack {
    var items: seq<Matrix>
    /** The greatest depth the stack has had. */
    ghost var peak: nat

    /** The stack has never been deeper than `peak`. */
    ghost predicate Valid()
      reads this
    {
      |items| <= peak
    }

    constructor ()
      ensures items == [] && peak == 0
      ensures Valid()
    {
      items := [];
      peak := 0;
    }

    function Top(): Matrix
      reads this
      requires items != []
    {
      items[|items| - 1]
    }

    method Push(m: Matrix)
      requires Valid()
      modifies this
      ensures Valid()
      ensures items == old(items) + [m]
      ensures peak == if |items| > old(peak) then |items| else old(peak)
    {
      items := items + [m];
      peak := if |items| > peak then |items| else peak;
    }

    /** Replace the top by the top with one more transform applied. */
    method Apply(op: Op)
      requires Valid() && items != []
      modifies this
      ensures Valid()
      ensures items == old(items)[..|old(items)| - 1] + [old(Top()) + [op]]
      ensures peak == old(peak)
    {
      items := items[..|items| - 1] + [Top() + [op]];
    }

    method Pop()
      requires Valid() && items != []
      modifies this
      ensures Valid()
      ensures items == old(items)[..|old(items)| - 1]
      ensures peak == old(peak)
    {
      items := items[..|items| - 1];
    }
  }

  /** One instance block: push a copy of the top, translate, scale, draw with
      the top as model matrix, pop. It starts from and leaves the root alone. */
  method PlaceInstance(model: TransformStack, mesh: Mesh, offset: Vec3, size: Vec3) returns (d: Draw)
    requires model.Valid() && model.items == [Identity] && model.peak <= 2
    modifies model
    ensures model.Valid() && model.items == [Identity] && model.peak == 2
    ensures d == Draw(mesh, [Translate(offset), Scale(size)])
  {
    model.Push(model.Top());
    model.Apply(Translate(offset));
    model.Apply(Scale(size));
    d := Draw(mesh, model.Top());
    model.Pop();
  }

  /** The right grandstand's block: as PlaceInstance, with a half turn about
      Y applied before the translate. */
  method PlaceTurnedInstance(model: TransformStack, mesh: Mesh, offset: Vec3, size: Vec3) returns (d: Draw)
    requires model.Valid() && model.items == [Identity] && model.peak <= 2
    modifies model
    ensures model.Valid() && model.items == [Identity] && model.peak == 2
    ensures d == Draw(mesh, [Rotate(180, Vec3(0, 1, 0)), Translate(offset), Scale(size)])
  {
    model.Push(model.Top());
    model.Apply(Rotate(180, Vec3(0, 1, 0)));
    model.Apply(Translate(offset));
    model.Apply(Scale(size));
    d := Draw(mesh, model.Top());
    model.Pop();
  }

  /** Draws the scene: the root identity is pushed once, every instance pushes
      and pops once, so the stack never holds more than two matrices and ends
      holding just the identity, and the draws are the scene's instances. The
      model matrix uniform and the light intensity uniform are outputs. */
  method RenderScene(p: Placement)
    returns (draws: seq<Draw>, rootModel: Matrix, lightUniform: Vec3, ghost finalStack: seq<Matrix>, ghost peak: nat)
    ensures draws == SceneInstances(p)
    ensures rootModel == Identity && lightUniform == p.light
    ensures finalStack == [Identity] && peak == 2
  {
    var model := new TransformStack();
    model.Push(Identity);
    rootModel := model.Top();
    lightUniform := p.light;

    var d0 := PlaceInstance(model, F1Generic, p.f1, CarScale);
    var d1 := PlaceInstance(model, Renault, p.renault, SmallCarScale);
    var d2 := PlaceInstance(model, Merc, p.merc, SmallCarScale);
    var d3 := PlaceInstance(model, Road, Vec3(0, 0, -8000), RoadScale);
    var d4 := PlaceInstance(model, Road, Vec3(0, 0, 10000), RoadScale);
    var d5 := PlaceInstance(model, Road, Vec3(0, 0, 28000), RoadScale);
    var d6 := PlaceTurnedInstance(model, Grandstand, Vec3(33500, -6400, -16050), GrandstandScale);
    var d7 := PlaceInstance(model, Grandstand, Vec3(33500, -6400, 15780), GrandstandScale);
    draws := [d0, d1, d2, d3, d4, d5, d6, d7];

    finalStack := model.items;
    peak := model.peak;
  }
}
