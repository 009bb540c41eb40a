/** Tenant-scoped document keys: a prefix, the organization, a separator and the entity, with nothing escaped. */
module DocumentKeys {
  import opened Domain

  function TenantScopedKey(prefix: string, org: Id, entity: Id): string {
    prefix + org + "::" + entity
  }

  /** The longer organization reads as the shorter one followed by a separator, the last colon being its own. */
  predicate Nested(org1: Id, org2: Id) {
    org1 + "::" <= org2 + ":" && org1 != org2
  }

  lemma SameKey(prefix: string, org1: Id, entity1: Id, org2: Id, entity2: Id)
    ensures TenantScopedKey(prefix, org1, entity1) == TenantScopedKey(prefix, org2, entity2)
            <==> org1 + "::" + entity1 == org2 + "::" + entity2
  {
    var key1, key2 := TenantScopedKey(prefix, org1, entity1), TenantScopedKey(prefix, org2, entity2);
    assert key1[|prefix|..] == org1 + "::" + entity1 && key2[|prefix|..] == org2 + "::" + entity2;
    assert key1 == prefix + (org1 + "::" + entity1) && key2 == prefix + (org2 + "::" + entity2);
  }

  /** Two keys of the shorter and the longer organization are one only if the organizations are one or nested. */
  lemma OneKey(org1: Id, entity1: Id, org2: Id, entity2: Id)
    requires org1 + "::" + entity1 == org2 + "::" + entity2 && |org1| <= |org2|
    ensures Nested(org1, org2) || (org1 == org2 && entity1 == entity2)
  {
    var whole := org1 + "::" + entity1;
    assert org2 + ":" == whole[..|org2| + 1] && org1 == whole[..|org1|];
    if |org1| == |org2| {
      assert org2 == (org2 + "::" + entity2)[..|org2|];
      assert entity1 == whole[|org1| + 2..] && entity2 == (org2 + "::" + entity2)[|org2| + 2..];
    } else {
      assert org1 + "::" == whole[..|org1| + 2];
      assert whole[..|org1| + 2] <= whole[..|org2| + 1];
    }
  }

  /** Keys tell entities apart unless one organization is nested in the other. */
  lemma KeysInjective(prefix: string, org1: Id, entity1: Id, org2: Id, entity2: Id)
    requires !Nested(org1, org2) && !Nested(org2, org1)
    requires TenantScopedKey(prefix, org1, entity1) == TenantScopedKey(prefix, org2, entity2)
    ensures org1 == org2 && entity1 == entity2
  {
    SameKey(prefix, org1, entity1, org2, entity2);
    if |org1| <= |org2| {
      OneKey(org1, entity1, org2, entity2);
    } else {
      OneKey(org2, entity2, org1, entity1);
    }
  }

  /** Entities of nested organizations that share a key: the rest of the longer one moves into the entity. */
  function Moved(org1: Id, org2: Id, entity: Id): Id
    requires Nested(org1, org2)
  {
    (org2 + "::" + entity)[|org1| + 2..]
  }

  lemma KeysCollide(prefix: string, org1: Id, org2: Id, entity: Id)
    requires Nested(org1, org2)
    ensures TenantScopedKey(prefix, org1, Moved(org1, org2, entity)) == TenantScopedKey(prefix, org2, entity)
  {
    var whole := org2 + "::" + entity;
    assert org2 + ":" == whole[..|org2| + 1];
    assert org1 + "::" == whole[..|org2| + 1][..|org1| + 2] == whole[..|org1| + 2];
    SameKey(prefix, org1, Moved(org1, org2, entity), org2, entity);
  }

  /** Two organizations share a key for some of their entities if and only if one is nested in the other. */
  lemma SharedKeysExactly(prefix: string, org1: Id, org2: Id)
    requires org1 != org2
    ensures (exists entity1: Id, entity2: Id ::
               TenantScopedKey(prefix, org1, entity1) == TenantScopedKey(prefix, org2, entity2))
            <==> Nested(org1, org2) || Nested(org2, org1)
  {
    if entity1: Id, entity2: Id :| TenantScopedKey(prefix, org1, entity1) == TenantScopedKey(prefix, org2, entity2) {
      if !Nested(org1, org2) && !Nested(org2, org1) { KeysInjective(prefix, org1, entity1, org2, entity2); }
    }
    if Nested(org1, org2) { KeysCollide(prefix, org1, org2, "x"); }
    if Nested(org2, org1) { KeysCollide(prefix, org2, org1, "x"); }
  }
}
