/** The category router of `add`: a descriptor's `type` picks the module
    that receives it. */
module Router {
  import opened Js

  /** The receiver of an added descriptor: Joint is a post of 'add' to the
      worker; the others are the consumer-side category modules. */
  datatype Target = Joint | SoftBody | Terrain | Character | Collision | Vehicle | RayCaster | RigidBody

  /** `s.substring(0, n)`: the first n characters, or all of a shorter string. */
  function Substring(s: string, n: nat): string
  {
    if |s| <= n then s else s[..n]
  }

  predicate StartsWith(s: string, p: string)
  {
    |p| <= |s| && s[..|p|] == p
  }

  /** The type `add` routes on: an absent type means 'box'. */
  function TypeOf(ty: Option<string>): string
  {
    ty.GetOr("box")
  }

  /** The module `add` hands a descriptor to; RouteSpec characterises it. */
  function Route(ty: Option<string>): (r: Target)
    ensures r != Joint && r != SoftBody && r != RigidBody ==> ExactType(TypeOf(ty))
  {
    var t := TypeOf(ty);
    var prev := Substring(t, 4);
    if prev == "join" then Joint
    else if prev == "soft" then SoftBody
    else if t == "terrain" then Terrain
    else if t == "character" then Character
    else if t == "collision" then Collision
    else if t == "car" then Vehicle
    else if t == "ray" then RayCaster
    else RigidBody
  }

  /** The types that pick a module by exact match. */
  predicate ExactType(t: string)
  {
    t == "terrain" || t == "character" || t == "collision" || t == "car" || t == "ray"
  }

  /** A 4-character prefix test on substring(0, 4) is StartsWith. */
  lemma PrefixIsStartsWith(t: string, p: string)
    requires |p| == 4
    ensures Substring(t, 4) == p <==> StartsWith(t, p)
  {
    if |t| < 4 {
      assert |Substring(t, 4)| != |p|;
    }
  }

  /** Each module receives exactly the types stated here: the two prefix
      families first, then the five exact names, and every other type,
      recognised or not, goes to the rigid-body module. */
  lemma RouteSpec(t: string)
    ensures Route(Some(t)) == Joint <==> StartsWith(t, "join")
    ensures Route(Some(t)) == SoftBody <==> StartsWith(t, "soft")
    ensures Route(Some(t)) == Terrain <==> t == "terrain"
    ensures Route(Some(t)) == Character <==> t == "character"
    ensures Route(Some(t)) == Collision <==> t == "collision"
    ensures Route(Some(t)) == Vehicle <==> t == "car"
    ensures Route(Some(t)) == RayCaster <==> t == "ray"
    ensures Route(Some(t)) == RigidBody <==> !StartsWith(t, "join") && !StartsWith(t, "soft") && !ExactType(t)
  {
    PrefixIsStartsWith(t, "join");
    PrefixIsStartsWith(t, "soft");
    if t == "terrain" || t == "character" || t == "collision" {
      assert t[..4] != "join" && t[..4] != "soft";
    }
  }

  /** An absent type is routed as 'box', to the rigid-body module. */
  lemma DefaultTypeIsRigid()
    ensures Route(None) == RigidBody
  {
    RouteSpec("box");
  }

  /** Every type of the soft family goes to the soft-body module, however it continues. */
  lemma SoftFamily(rest: string)
    ensures Route(Some("soft" + rest)) == SoftBody
  {
    var t := "soft" + rest;
    assert t[..4] == "soft";
    RouteSpec(t);
  }

  /** Exact names are exact: a longer type that merely starts with 'car'
      ('cars', 'carriage') falls through to the rigid-body module. */
  lemma ExactNamesAreExact(rest: string)
    requires rest != []
    ensures Route(Some("car" + rest)) == RigidBody
  {
    var t := "car" + rest;
    RouteSpec(t);
    assert t[0] == 'c' && t[1] == 'a' && |t| >= 4;
    assert t[..4][0] == 'c';
    assert !ExactType(t) by {
      assert t != "car" && t != "terrain" && t != "ray";
      assert t != "character" && t != "collision" by {
        assert "character"[1] == 'h' && "collision"[1] == 'o';
      }
    }
  }

  /** Debris pieces have type 'convex', which reaches the rigid-body module. */
  lemma ConvexIsRigid()
    ensures Route(Some("convex")) == RigidBody
  {
    RouteSpec("convex");
  }
}
