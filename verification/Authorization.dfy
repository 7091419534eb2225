/** Role-based permissions: the de-duplicating collection against the direct query. */
module Authorization {

  datatype Permission = Permission(resource: string, action: string)

  /** The roles a user holds, each with the permissions granted to it. */
  type Roles = seq<seq<Permission>>

  /** The key under which the collecting loop remembers a permission. */
  function Key(p: Permission): string {
    p.resource + ":" + p.action
  }

  /** `hasPermission`: some role of the user grants exactly this resource and action. */
  predicate HasPermission(roles: Roles, p: Permission) {
    exists r :: 0 <= r < |roles| && p in roles[r]
  }

  /** No two different granted permissions share a key. */
  ghost predicate KeysDistinct(roles: Roles) {
    forall a, b :: HasPermission(roles, a) && HasPermission(roles, b) && Key(a) == Key(b) ==> a == b
  }

  /** No two listed permissions share a key. */
  ghost predicate NoDuplicates(permissions: seq<Permission>) {
    forall i, j :: 0 <= i < j < |permissions| ==> Key(permissions[i]) != Key(permissions[j])
  }

  ghost predicate OnlyGranted(roles: Roles, permissions: seq<Permission>) {
    forall p :: p in permissions ==> HasPermission(roles, p)
  }

  /** Some listed permission has this key. */
  ghost predicate Represented(permissions: seq<Permission>, key: string) {
    exists i :: 0 <= i < |permissions| && Key(permissions[i]) == key
  }

  /** What `getUserPermissions` returns: every granted permission is represented, if only by its key. */
  ghost predicate IsCollection(roles: Roles, permissions: seq<Permission>) {
    && NoDuplicates(permissions)
    && OnlyGranted(roles, permissions)
    && (forall p :: HasPermission(roles, p) ==> Represented(permissions, Key(p)))
  }

  /** What the loop has established after some whole roles and a part of the next one. */
  ghost predicate Collected(done: Roles, part: seq<Permission>, seen: set<string>, permissions: seq<Permission>) {
    && NoDuplicates(permissions)
    && (forall p :: p in permissions ==> Key(p) in seen && (HasPermission(done, p) || p in part))
    && (forall k :: k in seen ==> Represented(permissions, k))
    && (forall p :: HasPermission(done, p) || p in part ==> Key(p) in seen)
  }

  lemma {:induction false} CollectMore(done: Roles, part: seq<Permission>, seen: set<string>,
                                       permissions: seq<Permission>, p: Permission)
    requires Collected(done, part, seen, permissions)
    ensures Key(p) in seen ==> Collected(done, part + [p], seen, permissions)
    ensures Key(p) !in seen ==> Collected(done, part + [p], seen + {Key(p)}, permissions + [p])
  {
    hide HasPermission, Key;
    if Key(p) !in seen {
      var more := permissions + [p];
      forall k | k in seen + {Key(p)} ensures Represented(more, k) {
        if k in seen {
          var i :| 0 <= i < |permissions| && Key(permissions[i]) == k;
          assert Key(more[i]) == k;
        } else {
          assert Key(more[|permissions|]) == k;
        }
      }
      forall i, j | 0 <= i < j < |more| ensures Key(more[i]) != Key(more[j]) {
        assert permissions[i] in permissions;
      }
    }
  }

  lemma {:induction false} RoleDone(roles: Roles, r: nat, seen: set<string>, permissions: seq<Permission>)
    requires r < |roles| && Collected(roles[..r], roles[r], seen, permissions)
    ensures Collected(roles[..r + 1], [], seen, permissions)
  {
    hide NoDuplicates, Represented, Key;
    forall p ensures HasPermission(roles[..r + 1], p) <==> HasPermission(roles[..r], p) || p in roles[r] {
      if p in roles[r] { assert p in roles[..r + 1][r]; }
      if HasPermission(roles[..r], p) {
        var k :| 0 <= k < r && p in roles[..r][k];
        assert p in roles[..r + 1][k];
      }
    }
  }

  /** `getUserPermissions`: walks the roles and keeps the first permission of every key. */
  method GetUserPermissions(roles: Roles) returns (permissions: seq<Permission>)
    ensures IsCollection(roles, permissions)
  {
    var seen: set<string> := {};
    permissions := [];
    var r := 0;
    assert Collected(roles[..r], [], seen, permissions);
    hide HasPermission, NoDuplicates, Represented;
    while r < |roles|
      invariant 0 <= r <= |roles|
      invariant Collected(roles[..r], [], seen, permissions)
    {
      hide Collected;
      var k := 0;
      assert roles[r][..0] == [];
      while k < |roles[r]|
        invariant 0 <= k <= |roles[r]|
        invariant Collected(roles[..r], roles[r][..k], seen, permissions)
      {
        var p := roles[r][k];
        assert roles[r][..k + 1] == roles[r][..k] + [p];
        CollectMore(roles[..r], roles[r][..k], seen, permissions, p);
        if Key(p) !in seen {
          seen := seen + {Key(p)};
          permissions := permissions + [p];
        }
        k := k + 1;
      }
      assert roles[r][..k] == roles[r];
      RoleDone(roles, r, seen, permissions);
      r := r + 1;
    }
    assert roles[..r] == roles;
  }

  lemma {:induction false} CollectedKeysDistinct(permissions: seq<Permission>, a: Permission, b: Permission)
    requires NoDuplicates(permissions) && a in permissions && b in permissions && Key(a) == Key(b)
    ensures a == b
  {
    hide Key;
    var i :| 0 <= i < |permissions| && permissions[i] == a;
    var j :| 0 <= j < |permissions| && permissions[j] == b;
    assert !(i < j) && !(j < i);
  }

  /** The collected list answers every `hasPermission` question exactly when no two granted permissions collide. */
  lemma {:induction false} CollectionMatchesQueryIff(roles: Roles, permissions: seq<Permission>)
    requires IsCollection(roles, permissions)
    ensures (forall p :: p in permissions <==> HasPermission(roles, p)) <==> KeysDistinct(roles)
  {
    hide HasPermission, Key, NoDuplicates;
    if forall p :: p in permissions <==> HasPermission(roles, p) {
      forall a, b | HasPermission(roles, a) && HasPermission(roles, b) && Key(a) == Key(b) ensures a == b {
        CollectedKeysDistinct(permissions, a, b);
      }
    }
    if KeysDistinct(roles) {
      forall p | HasPermission(roles, p) ensures p in permissions {
        var i :| 0 <= i < |permissions| && Key(permissions[i]) == Key(p);
        assert permissions[i] in permissions;
      }
    }
  }

  lemma ResourceEndsAtFirstColon(p: Permission)
    requires ':' !in p.resource
    ensures |p.resource| < |Key(p)| && Key(p)[|p.resource|] == ':'
    ensures forall i :: 0 <= i < |p.resource| ==> Key(p)[i] != ':'
    ensures p.resource == Key(p)[..|p.resource|] && p.action == Key(p)[|p.resource| + 1..]
  {
    assert forall i :: 0 <= i < |p.resource| ==> p.resource[i] in p.resource;
  }

  /** Resource names without a colon make the joined key unambiguous, so the list and the query agree. */
  lemma {:induction false} ColonFreeRolesMatchQuery(roles: Roles, permissions: seq<Permission>)
    requires IsCollection(roles, permissions)
    requires forall p :: HasPermission(roles, p) ==> ':' !in p.resource
    ensures forall p :: p in permissions <==> HasPermission(roles, p)
  {
    hide HasPermission, IsCollection;
    forall a, b | HasPermission(roles, a) && HasPermission(roles, b) && Key(a) == Key(b) ensures a == b {
      ResourceEndsAtFirstColon(a);
      ResourceEndsAtFirstColon(b);
      assert |a.resource| == |b.resource|;
    }
    assert KeysDistinct(roles);
    CollectionMatchesQueryIff(roles, permissions);
  }

  /** Without that, a granted permission can be missing from the list. */
  lemma {:induction false} CollidingKeysLoseAPermission(permissions: seq<Permission>)
    requires IsCollection([[Permission("a:b", "c"), Permission("a", "b:c")]], permissions)
    ensures exists p :: HasPermission([[Permission("a:b", "c"), Permission("a", "b:c")]], p) && p !in permissions
  {
    var x, y := Permission("a:b", "c"), Permission("a", "b:c");
    var roles := [[x, y]];
    assert roles[0][0] == x && roles[0][1] == y;
    assert HasPermission(roles, x) && HasPermission(roles, y);
    assert Key(x) == "a:b:c" && Key(y) == "a:b:c";
    assert |x.action| != |y.action|;
    if x in permissions {
      assert y !in permissions by {
        if y in permissions {
          CollectedKeysDistinct(permissions, x, y);
        }
      }
    }
  }
}
