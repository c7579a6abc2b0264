/**
 The certificate-chain check, with the signature check as an abstract relation between an
 issuer and the certificate it has signed.
 */
module CertChain {
  import opened Options

  /** No basic constraints at all, constraints without a limit, or a limit. */
  datatype PathLength = Missing | Unlimited | Limited(n: nat)

  datatype Cert = Cert(subject: string, notBefore: int, notAfter: int, path: PathLength, ellipticKey: bool)

  datatype Error = NotYetValid | Expired | BadAttribute | BadChainLength | BadSignature

  datatype Verdict = Accepted | Rejected(error: Error)

  type Signs = (Cert, Cert) -> bool

  predicate InDate(cert: Cert, now: int) { cert.notBefore <= now <= cert.notAfter }

  /** Every certificate in turn, the start of its validity before its end. */
  function Validity(certs: seq<Cert>, now: int): Verdict {
    if certs == [] then Accepted
    else if certs[0].notBefore > now then Rejected(NotYetValid)
    else if certs[0].notAfter < now then Rejected(Expired)
    else Validity(certs[1..], now)
  }

  method CheckValidity(certs: seq<Cert>, now: int) returns (verdict: Verdict)
    ensures verdict == Validity(certs, now)
  {
    for i := 0 to |certs|
      invariant Validity(certs, now) == Validity(certs[i..], now)
    {
      if certs[i].notBefore > now {
        return Rejected(NotYetValid);
      }
      if certs[i].notAfter < now {
        return Rejected(Expired);
      }
      assert certs[i..][1..] == certs[i + 1..];
    }
    return Accepted;
  }

  /** The sub-CAs in their roles: `two` issues leaves, `one` issues `two`. */
  datatype Roles = Roles(two: Option<Cert>, one: Option<Cert>) | Misfit(error: Error)

  function Assign(subCas: seq<Cert>): Roles {
    if subCas == [] then Roles(None, None)
    else
      var before := Assign(subCas[..|subCas| - 1]);
      var cert := subCas[|subCas| - 1];
      if before.Misfit? then before
      else
        match cert.path
        case Missing => Misfit(BadAttribute)
        case Unlimited => Misfit(BadChainLength)
        case Limited(n) =>
          if n == 0 then if before.two.Some? then Misfit(BadAttribute) else before.(two := Some(cert))
          else if n == 1 then if before.one.Some? then Misfit(BadAttribute) else before.(one := Some(cert))
          else Misfit(BadChainLength)
  }

  method Categorize(subCas: seq<Cert>) returns (roles: Roles)
    ensures roles == Assign(subCas)
  {
    var two: Option<Cert>, one: Option<Cert> := None, None;
    for i := 0 to |subCas|
      invariant Assign(subCas[..i]) == Roles(two, one)
    {
      var cert := subCas[i];
      assert subCas[..i + 1][..i] == subCas[..i];
      ghost var next := Assign(subCas[..i + 1]);
      if cert.path.Missing? {
        MisfitStays(subCas, i + 1);
        return Misfit(BadAttribute);
      }
      if cert.path.Limited? && cert.path.n == 0 {
        if two.Some? {
          MisfitStays(subCas, i + 1);
          return Misfit(BadAttribute);
        }
        two := Some(cert);
      } else if cert.path.Limited? && cert.path.n == 1 {
        if one.Some? {
          MisfitStays(subCas, i + 1);
          return Misfit(BadAttribute);
        }
        one := Some(cert);
      } else {
        MisfitStays(subCas, i + 1);
        return Misfit(BadChainLength);
      }
    }
    assert subCas[..|subCas|] == subCas;
    return Roles(two, one);
  }

  lemma {:induction false} MisfitStays(subCas: seq<Cert>, i: nat)
    requires i <= |subCas| && Assign(subCas[..i]).Misfit?
    ensures Assign(subCas) == Assign(subCas[..i])
    decreases |subCas|
  {
    if i < |subCas| {
      var last := |subCas| - 1;
      assert subCas[..last][..i] == subCas[..i];
      MisfitStays(subCas[..last], i);
    } else {
      assert subCas[..i] == subCas;
    }
  }

  datatype Link = Link(issuer: Cert, subject: Cert)

  /** Leaf first; an issuer key that is not an elliptic-curve key ends the signature checks. */
  function Signatures(links: seq<Link>, signs: Signs): Verdict {
    if links == [] || !links[0].issuer.ellipticKey then Accepted
    else if signs(links[0].issuer, links[0].subject) then Signatures(links[1..], signs)
    else Rejected(BadSignature)
  }

  function Chain(leaf: Cert, two: Cert, one: Option<Cert>, root: Cert): seq<Link> {
    if one.Some? then [Link(two, leaf), Link(one.value, two), Link(root, one.value)]
    else [Link(two, leaf), Link(root, two)]
  }

  function Verify(leaf: Cert, subCas: seq<Cert>, root: Option<Cert>, inPrivate: bool, now: int, signs: Signs): Verdict {
    if Validity([leaf] + subCas, now).Rejected? then Validity([leaf] + subCas, now)
    else if root.None? then Accepted
    else
      var roles := Assign(subCas);
      if roles.Misfit? then Rejected(roles.error)
      else if roles.two.None? && !inPrivate then Rejected(BadChainLength)
      else if (roles.two.Some? || roles.one.Some?) && inPrivate then Rejected(BadChainLength)
      else if inPrivate then Signatures([Link(root.value, leaf)], signs)
      else Signatures(Chain(leaf, roles.two.value, roles.one, root.value), signs)
  }

  /** `verify_certs`; only a failed signature check is reported by the part that checks signatures. */
  method VerifyCerts(leaf: Cert, subCas: seq<Cert>, root: Option<Cert>, inPrivate: bool, now: int, signs: Signs)
    returns (verdict: Verdict)
    ensures verdict == Verify(leaf, subCas, root, inPrivate, now, signs)
  {
    var certsToCheck := [leaf];
    if |subCas| != 0 {
      certsToCheck := certsToCheck + subCas;
    }
    assert certsToCheck == [leaf] + subCas;
    verdict := CheckValidity(certsToCheck, now);
    if verdict.Rejected? || root.None? {
      return;
    }
    var roles := Categorize(subCas);
    if roles.Misfit? {
      return Rejected(roles.error);
    }
    if roles.two.None? && !inPrivate {
      return Rejected(BadChainLength);
    }
    if (roles.two.Some? || roles.one.Some?) && inPrivate {
      return Rejected(BadChainLength);
    }
    if inPrivate {
      OneSignature(root.value, leaf, signs);
      var ok, over := CheckLink(root.value, leaf, signs);
      return if ok then Accepted else Rejected(BadSignature);
    }
    var two := roles.two.value;
    SignaturesOneByOne(leaf, two, roles.one, root.value, signs);
    var ok, over := CheckLink(two, leaf, signs);
    if over {
      return if ok then Accepted else Rejected(BadSignature);
    }
    if roles.one.Some? {
      ok, over := CheckLink(roles.one.value, two, signs);
      if over {
        return if ok then Accepted else Rejected(BadSignature);
      }
      ok, over := CheckLink(root.value, roles.one.value, signs);
    } else {
      ok, over := CheckLink(root.value, two, signs);
    }
    return if ok then Accepted else Rejected(BadSignature);
  }

  lemma OneSignature(issuer: Cert, subject: Cert, signs: Signs)
    ensures Signatures([Link(issuer, subject)], signs) ==
      if issuer.ellipticKey && !signs(issuer, subject) then Rejected(BadSignature) else Accepted
  {
    assert [Link(issuer, subject)][1..] == [];
  }

  lemma SignaturesOneByOne(leaf: Cert, two: Cert, one: Option<Cert>, root: Cert, signs: Signs)
    ensures var verdict := Signatures(Chain(leaf, two, one, root), signs);
      if !two.ellipticKey then verdict == Accepted
      else if !signs(two, leaf) then verdict == Rejected(BadSignature)
      else if one.None? then verdict == if root.ellipticKey && !signs(root, two) then Rejected(BadSignature) else Accepted
      else if !one.value.ellipticKey then verdict == Accepted
      else if !signs(one.value, two) then verdict == Rejected(BadSignature)
      else verdict == if root.ellipticKey && !signs(root, one.value) then Rejected(BadSignature) else Accepted
  {
    var links := Chain(leaf, two, one, root);
    assert links[0] == Link(two, leaf);
    if one.Some? {
      OneSignature(root, one.value, signs);
      assert links[1..] == [Link(one.value, two), Link(root, one.value)];
      assert links[1..][1..] == [Link(root, one.value)];
    } else {
      OneSignature(root, two, signs);
      assert links[1..] == [Link(root, two)];
    }
  }

  /** One signature: `over` when the remaining ones are not looked at. */
  method CheckLink(issuer: Cert, subject: Cert, signs: Signs) returns (ok: bool, over: bool)
    ensures over <==> !issuer.ellipticKey || !signs(issuer, subject)
    ensures ok <==> !issuer.ellipticKey || signs(issuer, subject)
  {
    if issuer.ellipticKey {
      if signs(issuer, subject) {
        return true, false;
      }
      return false, true;
    }
    return true, true;
  }

  lemma {:induction false} ValidityIsAllInDate(certs: seq<Cert>, now: int)
    ensures Validity(certs, now).Accepted? <==> forall i :: 0 <= i < |certs| ==> InDate(certs[i], now)
  {
    if certs != [] {
      ValidityIsAllInDate(certs[1..], now);
      assert forall i :: 0 < i < |certs| ==> certs[i] == certs[1..][i - 1];
    }
  }

  /** Two roles can hold no more than two sub-CAs. */
  lemma {:induction false} RolesHoldAll(subCas: seq<Cert>)
    ensures var roles := Assign(subCas);
      roles.Roles? ==>
        && |subCas| == (if roles.two.Some? then 1 else 0) + (if roles.one.Some? then 1 else 0)
        && (forall i :: 0 <= i < |subCas| ==> Some(subCas[i]) == roles.two || Some(subCas[i]) == roles.one)
        && (roles.two.Some? ==> roles.two.value in subCas && roles.two.value.path == Limited(0))
        && (roles.one.Some? ==> roles.one.value in subCas && roles.one.value.path == Limited(1))
  {
    if subCas != [] {
      RolesHoldAll(subCas[..|subCas| - 1]);
    }
  }

  /** One sub-CA of path length 0, at most one of path length 1, none of another. */
  predicate WellAssigned(subCas: seq<Cert>, two: Cert, one: Option<Cert>) {
    && two.path == Limited(0) && (one.Some? ==> one.value.path == Limited(1))
    && ((subCas == [two] && one.None?) || (one.Some? && (subCas == [two, one.value] || subCas == [one.value, two])))
  }

  lemma AssignExactly(subCas: seq<Cert>, two: Cert, one: Option<Cert>)
    ensures Assign(subCas) == Roles(Some(two), one) <==> WellAssigned(subCas, two, one)
  {
    RolesHoldAll(subCas);
    if |subCas| == 1 {
      assert Assign(subCas[..0]) == Roles(None, None);
    } else if |subCas| == 2 {
      assert subCas[..1][..0] == [];
      assert Assign(subCas[..1][..0]) == Roles(None, None);
      assert subCas[..1] == [subCas[0]];
    }
  }

  predicate ChainSigned(leaf: Cert, two: Cert, one: Option<Cert>, root: Cert, signs: Signs) {
    signs(two, leaf) && if one.Some? then signs(one.value, two) && signs(root, one.value) else signs(root, two)
  }

  /** What is left of it when a key of another type ends the checks. */
  predicate ChainChecked(leaf: Cert, two: Cert, one: Option<Cert>, root: Cert, signs: Signs) {
    two.ellipticKey ==>
      && signs(two, leaf)
      && (one.None? ==> root.ellipticKey ==> signs(root, two))
      && (one.Some? && one.value.ellipticKey ==> signs(one.value, two) && (root.ellipticKey ==> signs(root, one.value)))
  }

  predicate AllInDate(leaf: Cert, subCas: seq<Cert>, now: int) {
    InDate(leaf, now) && forall i :: 0 <= i < |subCas| ==> InDate(subCas[i], now)
  }

  lemma ValidityOfChain(leaf: Cert, subCas: seq<Cert>, now: int)
    ensures Validity([leaf] + subCas, now).Accepted? <==> AllInDate(leaf, subCas, now)
  {
    ValidityIsAllInDate([leaf] + subCas, now);
    assert ([leaf] + subCas)[0] == leaf;
    assert forall i :: 0 <= i < |subCas| ==> ([leaf] + subCas)[i + 1] == subCas[i];
  }

  /** Exactly when a public chain is accepted, whatever its keys. */
  lemma PublicChainExactly(leaf: Cert, subCas: seq<Cert>, root: Cert, now: int, signs: Signs)
    ensures Verify(leaf, subCas, Some(root), false, now, signs).Accepted? <==>
      AllInDate(leaf, subCas, now) && exists two, one :: WellAssigned(subCas, two, one) && ChainChecked(leaf, two, one, root, signs)
  {
    ValidityOfChain(leaf, subCas, now);
    RolesHoldAll(subCas);
    var roles := Assign(subCas);
    if roles.Roles? && roles.two.Some? {
      AssignExactly(subCas, roles.two.value, roles.one);
      SignaturesOneByOne(leaf, roles.two.value, roles.one, root, signs);
    }
    if two, one :| WellAssigned(subCas, two, one) && ChainChecked(leaf, two, one, root, signs) {
      AssignExactly(subCas, two, one);
    }
  }

  /**
   With a root present and elliptic-curve keys, a public chain is accepted exactly when all
   given certificates are in date, one sub-CA has path length 0, at most one has 1, none has
   another, and leaf, sub-CAs and root are linked by signatures.
   */
  lemma PublicChainAccepted(leaf: Cert, subCas: seq<Cert>, root: Cert, now: int, signs: Signs)
    requires root.ellipticKey && forall i :: 0 <= i < |subCas| ==> subCas[i].ellipticKey
    ensures Verify(leaf, subCas, Some(root), false, now, signs).Accepted? <==>
      AllInDate(leaf, subCas, now) && exists two, one :: WellAssigned(subCas, two, one) && ChainSigned(leaf, two, one, root, signs)
  {
    PublicChainExactly(leaf, subCas, root, now, signs);
    forall two, one | WellAssigned(subCas, two, one)
      ensures ChainSigned(leaf, two, one, root, signs) <==> ChainChecked(leaf, two, one, root, signs)
    {
      assert two in subCas && (one.Some? ==> one.value in subCas);
    }
  }

  /** A private chain is a leaf signed by the root, without sub-CAs. */
  lemma PrivateChainExactly(leaf: Cert, subCas: seq<Cert>, root: Cert, now: int, signs: Signs)
    ensures Verify(leaf, subCas, Some(root), true, now, signs).Accepted? <==>
      InDate(leaf, now) && subCas == [] && (root.ellipticKey ==> signs(root, leaf))
  {
    ValidityOfChain(leaf, subCas, now);
    RolesHoldAll(subCas);
    OneSignature(root, leaf, signs);
  }

  /** Whatever the keys, a list of more than two sub-CAs is rejected once a root is present. */
  lemma LongListsAreRejected(leaf: Cert, subCas: seq<Cert>, root: Cert, inPrivate: bool, now: int, signs: Signs)
    requires |subCas| > 2
    ensures Verify(leaf, subCas, Some(root), inPrivate, now, signs).Rejected?
  {
    RolesHoldAll(subCas);
  }

  /** Whatever the keys, acceptance does not depend on the order of the sub-CA list. */
  lemma OrderDoesNotMatter(leaf: Cert, subCas: seq<Cert>, other: seq<Cert>, root: Option<Cert>, inPrivate: bool, now: int, signs: Signs)
    requires multiset(subCas) == multiset(other)
    ensures Verify(leaf, subCas, root, inPrivate, now, signs).Accepted? == Verify(leaf, other, root, inPrivate, now, signs).Accepted?
  {
    ValidityOfMultiset(leaf, subCas, other, now);
    if root.Some? {
      RolesHoldAll(subCas);
      RolesHoldAll(other);
      assert |subCas| == |multiset(subCas)| == |other|;
      RolesOfMultiset(subCas, other);
      RolesOfMultiset(other, subCas);
    }
  }

  lemma ValidityOfMultiset(leaf: Cert, subCas: seq<Cert>, other: seq<Cert>, now: int)
    requires multiset(subCas) == multiset(other)
    ensures Validity([leaf] + subCas, now).Accepted? == Validity([leaf] + other, now).Accepted?
  {
    ValidityIsAllInDate([leaf] + subCas, now);
    ValidityIsAllInDate([leaf] + other, now);
    var a, b := [leaf] + subCas, [leaf] + other;
    assert multiset(a) == multiset(b);
    forall x ensures x in a <==> x in b {
      assert x in a <==> x in multiset(a);
      assert x in b <==> x in multiset(b);
    }
    assert forall i :: 0 <= i < |a| ==> a[i] in b;
    assert forall i :: 0 <= i < |b| ==> b[i] in a;
  }

  lemma RolesOfMultiset(subCas: seq<Cert>, other: seq<Cert>)
    requires multiset(subCas) == multiset(other) && |subCas| == |other|
    ensures Assign(subCas).Roles? ==> Assign(other) == Assign(subCas)
  {
    RolesHoldAll(subCas);
    var roles := Assign(subCas);
    if roles.Roles? && |subCas| == 1 {
      assert subCas[0] in multiset(other);
      assert other == subCas;
    } else if roles.Roles? && |subCas| == 2 {
      assert subCas[0] in multiset(other) && subCas[1] in multiset(other);
      AssignExactly(subCas, roles.two.value, roles.one);
      AssignExactly(other, roles.two.value, roles.one);
    }
  }

  // Why a chain is rejected.

  predicate FirstOutOfDate(certs: seq<Cert>, now: int, k: nat) {
    k < |certs| && !InDate(certs[k], now) && forall i :: 0 <= i < k ==> InDate(certs[i], now)
  }

  lemma {:induction false} OutOfDateError(certs: seq<Cert>, now: int, k: nat)
    requires FirstOutOfDate(certs, now, k)
    ensures Validity(certs, now) == Rejected(if certs[k].notBefore > now then NotYetValid else Expired)
  {
    if k > 0 {
      assert InDate(certs[0], now);
      assert forall i :: 0 <= i < k - 1 ==> certs[1..][i] == certs[i + 1];
      OutOfDateError(certs[1..], now, k - 1);
    }
  }

  /** One of the two path lengths, and not one that an earlier sub-CA has. */
  predicate TakesRole(subCas: seq<Cert>, k: nat)
    requires k < |subCas|
  {
    && (subCas[k].path == Limited(0) || subCas[k].path == Limited(1))
    && forall i :: 0 <= i < k ==> subCas[i].path != subCas[k].path
  }

  predicate FirstWithoutRole(subCas: seq<Cert>, k: nat) {
    k < |subCas| && !TakesRole(subCas, k) && forall i :: 0 <= i < k ==> TakesRole(subCas, i)
  }

  /** The roles of sub-CAs that all take one: the cert of each path length, if there is one. */
  lemma {:induction false} RolesTaken(subCas: seq<Cert>)
    requires forall i :: 0 <= i < |subCas| ==> TakesRole(subCas, i)
    ensures var roles := Assign(subCas);
      && roles.Roles?
      && (roles.two.Some? <==> exists i :: 0 <= i < |subCas| && subCas[i].path == Limited(0))
      && (roles.one.Some? <==> exists i :: 0 <= i < |subCas| && subCas[i].path == Limited(1))
  {
    if subCas != [] {
      var n := |subCas| - 1;
      forall i | 0 <= i < n ensures TakesRole(subCas[..n], i) {
        assert TakesRole(subCas, i);
      }
      RolesTaken(subCas[..n]);
      assert TakesRole(subCas, n);
      assert forall i :: 0 <= i < n ==> subCas[..n][i] == subCas[i];
    }
  }

  lemma RoleError(subCas: seq<Cert>, k: nat)
    requires FirstWithoutRole(subCas, k)
    ensures Assign(subCas) ==
      Misfit(match subCas[k].path case Missing => BadAttribute case Unlimited => BadChainLength
             case Limited(n) => if n <= 1 then BadAttribute else BadChainLength)
  {
    var before := subCas[..k];
    forall i | 0 <= i < k ensures TakesRole(before, i) {
      assert TakesRole(subCas, i);
    }
    RolesTaken(before);
    assert subCas[..k + 1][..k] == before;
    assert forall i :: 0 <= i < k ==> before[i] == subCas[i];
    if !TakesRole(subCas, k) && (subCas[k].path == Limited(0) || subCas[k].path == Limited(1)) {
      var i :| 0 <= i < k && subCas[i].path == subCas[k].path;
      assert before[i].path == subCas[k].path;
    }
    MisfitStays(subCas, k + 1);
  }

  /**
   The first certificate out of date decides; without a root nothing else is checked; then the
   first sub-CA that takes no role decides, then the number of roles, then the signatures.
   */
  lemma RejectionHasFirstCause(leaf: Cert, subCas: seq<Cert>, root: Option<Cert>, inPrivate: bool, now: int, signs: Signs, k: nat)
    ensures var verdict, certs := Verify(leaf, subCas, root, inPrivate, now, signs), [leaf] + subCas;
      && (FirstOutOfDate(certs, now, k) ==> verdict == Rejected(if certs[k].notBefore > now then NotYetValid else Expired))
      && (AllInDate(leaf, subCas, now) ==>
           && (root.None? ==> verdict == Accepted)
           && (root.Some? && FirstWithoutRole(subCas, k) ==>
                verdict == Rejected(match subCas[k].path case Missing => BadAttribute case Unlimited => BadChainLength
                                    case Limited(n) => if n <= 1 then BadAttribute else BadChainLength))
           && (root.Some? && (forall i :: 0 <= i < |subCas| ==> TakesRole(subCas, i)) ==>
                if (if inPrivate then subCas != [] else forall i :: 0 <= i < |subCas| ==> subCas[i].path != Limited(0))
                then verdict == Rejected(BadChainLength)
                else verdict == Accepted || verdict == Rejected(BadSignature)))
  {
    var certs := [leaf] + subCas;
    ValidityOfChain(leaf, subCas, now);
    if FirstOutOfDate(certs, now, k) {
      OutOfDateError(certs, now, k);
    }
    if AllInDate(leaf, subCas, now) && root.Some? {
      if FirstWithoutRole(subCas, k) {
        RoleError(subCas, k);
      }
      if forall i :: 0 <= i < |subCas| ==> TakesRole(subCas, i) {
        RolesTaken(subCas);
        RolesHoldAll(subCas);
        SignatureVerdict(leaf, subCas, root.value, inPrivate, signs);
      }
    }
  }

  lemma SignatureVerdict(leaf: Cert, subCas: seq<Cert>, root: Cert, inPrivate: bool, signs: Signs)
    ensures var roles := Assign(subCas);
      && (var verdict := Signatures([Link(root, leaf)], signs); verdict == Accepted || verdict == Rejected(BadSignature))
      && (roles.Roles? && roles.two.Some? ==>
           var verdict := Signatures(Chain(leaf, roles.two.value, roles.one, root), signs);
           verdict == Accepted || verdict == Rejected(BadSignature))
  {
    OneSignature(root, leaf, signs);
    var roles := Assign(subCas);
    if roles.Roles? && roles.two.Some? {
      SignaturesOneByOne(leaf, roles.two.value, roles.one, root, signs);
    }
  }
}
