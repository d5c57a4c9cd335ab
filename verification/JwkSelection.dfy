// JWKS key selection (sections 4.2, 4.3 and 4.5 of RFC 7517).
module JwkSelection {
  import opened Common

  datatype Algorithm = RS256 | RS384 | RS512 | PS256 | PS384 | PS512 | ES256 | ES384 | EdDSA | OtherAlgorithm

  datatype KeyUse = Signature | OtherUse

  datatype KeyOperation = Verify | OtherOperation

  type Key = nat

  // `decoded` stands for DecodingKey::from_jwk.
  datatype Jwk = Jwk(
    kid: Option<string>, algorithm: Option<Algorithm>, keyUse: Option<KeyUse>, operations: Option<seq<KeyOperation>>,
    decoded: Option<Key>)

  // is_compatible_jwk
  predicate Compatible(jwk: Jwk, algorithm: Algorithm) {
    && algorithm != OtherAlgorithm && jwk.algorithm == Some(algorithm)
    && jwk.keyUse in {None, Some(Signature)}
    && (jwk.operations.None? || Verify in jwk.operations.value)
  }

  // The entries of the set that carry a key ID.
  function Carriers(jwks: seq<Jwk>, kid: string): seq<Jwk> {
    if jwks == [] then []
    else
      var last := jwks[|jwks| - 1];
      Carriers(jwks[..|jwks| - 1], kid) + if last.kid == Some(kid) then [last] else []
  }

  // The key a key ID stands for: there must be exactly one carrier, and it must be usable.
  function Selected(jwks: seq<Jwk>, algorithm: Algorithm, kid: string): Option<Key> {
    var carriers := Carriers(jwks, kid);
    if |carriers| == 1 && Compatible(carriers[0], algorithm) then carriers[0].decoded else None
  }

  ghost predicate Selects(keys: map<string, Key>, jwks: seq<Jwk>, algorithm: Algorithm) {
    forall kid :: Selected(jwks, algorithm, kid) == if kid in keys then Some(keys[kid]) else None
  }

  // The key map of a set, written as the collection of its selected keys.
  function KeysOf(jwks: seq<Jwk>, algorithm: Algorithm): map<string, Key> {
    var kids := set i | 0 <= i < |jwks| && jwks[i].kid.Some? :: jwks[i].kid.value;
    map kid | kid in kids && Selected(jwks, algorithm, kid).Some? :: Selected(jwks, algorithm, kid).value
  }

  lemma {:induction false} CarriersAreIn(jwks: seq<Jwk>, kid: string)
    requires Carriers(jwks, kid) != []
    ensures exists i :: 0 <= i < |jwks| && jwks[i].kid == Some(kid)
    decreases |jwks|
  {
    if jwks[|jwks| - 1].kid != Some(kid) {
      CarriersAreIn(jwks[..|jwks| - 1], kid);
      var i :| 0 <= i < |jwks[..|jwks| - 1]| && jwks[..|jwks| - 1][i].kid == Some(kid);
      assert jwks[i].kid == Some(kid);
    }
  }

  lemma KeysOfSelects(jwks: seq<Jwk>, algorithm: Algorithm)
    ensures Selects(KeysOf(jwks, algorithm), jwks, algorithm)
  {
    forall kid | Selected(jwks, algorithm, kid).Some? ensures kid in KeysOf(jwks, algorithm) {
      CarriersAreIn(jwks, kid);
    }
  }

  // What the loop holds for one key ID: the first carrier decides, later ones make it a duplicate.
  ghost predicate SoFar(jwks: seq<Jwk>, algorithm: Algorithm, kid: string, keys: map<string, Key>, seen: set<string>,
                        duplicates: set<string>) {
    var carriers := Carriers(jwks, kid);
    && (kid in seen <==> carriers != [])
    && (kid in duplicates <==> |carriers| > 1)
    && (kid in keys <==> carriers != [] && Compatible(carriers[0], algorithm) && carriers[0].decoded.Some?)
    && (kid in keys ==> carriers[0].decoded == Some(keys[kid]))
  }

  // compatible_keys
  method CompatibleKeys(jwks: seq<Jwk>, algorithm: Algorithm) returns (keys: map<string, Key>)
    ensures Selects(keys, jwks, algorithm) && keys == KeysOf(jwks, algorithm)
  {
    keys := map[];
    var seen: set<string>, duplicates: set<string> := {}, {};
    var i := 0;
    while i < |jwks|
      invariant 0 <= i <= |jwks|
      invariant forall kid :: SoFar(jwks[..i], algorithm, kid, keys, seen, duplicates)
    {
      var jwk := jwks[i];
      ghost var before, had, many := keys, seen, duplicates;
      if jwk.kid.Some? {
        var kid := jwk.kid.value;
        if kid in seen {
          duplicates := duplicates + {kid};
        } else {
          seen := seen + {kid};
          if Compatible(jwk, algorithm) && jwk.decoded.Some? { keys := keys[kid := jwk.decoded.value]; }
        }
      }
      ghost var upTo := jwks[..i + 1];
      assert upTo[..i] == jwks[..i];
      forall kid ensures SoFar(upTo, algorithm, kid, keys, seen, duplicates) {
        assert SoFar(jwks[..i], algorithm, kid, before, had, many);
      }
      i := i + 1;
    }
    assert jwks[..i] == jwks;
    ghost var all := keys;
    var rest := duplicates;
    while rest != {}
      invariant rest <= duplicates && keys == all - (duplicates - rest)
      decreases rest
    {
      var duplicate :| duplicate in rest;
      keys := keys - {duplicate};
      rest := rest - {duplicate};
    }
    forall kid ensures Selected(jwks, algorithm, kid) == if kid in keys then Some(keys[kid]) else None {
      assert SoFar(jwks, algorithm, kid, all, seen, duplicates);
    }
    KeysOfSelects(jwks, algorithm);
    SelectsIsUnique(jwks, algorithm, keys, KeysOf(jwks, algorithm));
  }

  lemma {:induction false} CarrierCount(jwks: seq<Jwk>, kid: string, x: Jwk)
    ensures multiset(Carriers(jwks, kid))[x] == if x.kid == Some(kid) then multiset(jwks)[x] else 0
    decreases |jwks|
  {
    if jwks != [] {
      var front, last := jwks[..|jwks| - 1], jwks[|jwks| - 1];
      CarrierCount(front, kid, x);
      assert jwks == front + [last];
    }
  }

  // The order of the set does not matter.
  lemma SelectionIgnoresOrder(a: seq<Jwk>, b: seq<Jwk>, algorithm: Algorithm, kid: string)
    requires multiset(a) == multiset(b)
    ensures Selected(a, algorithm, kid) == Selected(b, algorithm, kid)
  {
    var ca, cb := Carriers(a, kid), Carriers(b, kid);
    forall x ensures multiset(ca)[x] == multiset(cb)[x] {
      CarrierCount(a, kid, x);
      CarrierCount(b, kid, x);
    }
    assert multiset(ca) == multiset(cb);
    assert |ca| == |multiset(ca)| && |cb| == |multiset(cb)|;
    if |ca| == 1 {
      assert ca == [ca[0]] && cb == [cb[0]];
      assert ca[0] in multiset(cb);
    }
  }

  // Permuting the set changes no entry of the resulting key map.
  lemma PermutedSetsGiveEqualMaps(a: seq<Jwk>, b: seq<Jwk>, algorithm: Algorithm)
    requires multiset(a) == multiset(b)
    ensures KeysOf(a, algorithm) == KeysOf(b, algorithm)
  {
    KeysOfSelects(a, algorithm);
    KeysOfSelects(b, algorithm);
    var keys := KeysOf(b, algorithm);
    forall kid ensures Selected(a, algorithm, kid) == if kid in keys then Some(keys[kid]) else None {
      SelectionIgnoresOrder(a, b, algorithm, kid);
    }
    SelectsIsUnique(a, algorithm, KeysOf(a, algorithm), keys);
  }

  lemma SelectsIsUnique(jwks: seq<Jwk>, algorithm: Algorithm, a: map<string, Key>, b: map<string, Key>)
    requires Selects(a, jwks, algorithm) && Selects(b, jwks, algorithm)
    ensures a == b
  {
    forall kid ensures (kid in a <==> kid in b) && (kid in a ==> a[kid] == b[kid]) {
      assert Selected(jwks, algorithm, kid) == if kid in a then Some(a[kid]) else None;
      assert Selected(jwks, algorithm, kid) == if kid in b then Some(b[kid]) else None;
    }
  }
}
