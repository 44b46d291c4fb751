/** Which managed secrets a connection profile names: as a list, once per field, and as a set. */
module References {
  import opened Common

  datatype Provider = Environment | File | Managed

  datatype Reference = Reference(provider: Provider, identifier: string)

  /** `rest` stands for the endpoint, driver and options: everything that carries no reference. */
  datatype Profile = Profile(password: Option<Reference>, token: Option<Reference>, apiKey: Option<Reference>,
                             privateKey: Option<Reference>, serviceAccount: Option<Reference>,
                             caCertificate: Option<Reference>, clientCertificate: Option<Reference>,
                             clientPrivateKey: Option<Reference>, clientPrivateKeyPassword: Option<Reference>,
                             rest: string)

  function ReferenceFields(p: Profile): seq<Option<Reference>> {
    [p.password, p.token, p.apiKey, p.privateKey, p.serviceAccount,
     p.caCertificate, p.clientCertificate, p.clientPrivateKey, p.clientPrivateKeyPassword]
  }

  function ManagedOf(fields: seq<Option<Reference>>): seq<Reference> {
    if fields == [] then []
    else
      var last := fields[|fields| - 1];
      ManagedOf(fields[..|fields| - 1])
      + (if last.Some? && last.value.provider == Managed then [last.value] else [])
  }

  function ManagedReferences(p: Profile): seq<Reference> {
    ManagedOf(ReferenceFields(p))
  }

  function ManagedIds(p: Profile): set<string> {
    set r | r in ManagedReferences(p) :: r.identifier
  }

  /** How many references of the list carry the identifier. */
  function Occurring(references: seq<Reference>, id: string): nat {
    if references == [] then 0
    else Occurring(references[..|references| - 1], id)
         + (if references[|references| - 1].identifier == id then 1 else 0)
  }

  /** The fields of a profile that name the managed secret. */
  function Positions(fields: seq<Option<Reference>>, id: string): set<int> {
    set i | 0 <= i < |fields| && fields[i] == Some(Reference(Managed, id))
  }

  lemma {:induction false} ManagedPositions(fields: seq<Option<Reference>>, id: string)
    ensures Occurring(ManagedOf(fields), id) == |Positions(fields, id)|
    ensures (exists r :: r in ManagedOf(fields) && r.identifier == id) <==> Positions(fields, id) != {}
  {
    if fields != [] {
      var n := |fields| - 1;
      var init, last := fields[..n], fields[n];
      ManagedPositions(init, id);
      var managed := ManagedOf(init);
      if last.Some? && last.value.provider == Managed {
        assert ManagedOf(fields) == managed + [last.value];
        assert (managed + [last.value])[..|managed|] == managed;
        assert last.value in ManagedOf(fields);
      } else {
        assert ManagedOf(fields) == managed;
      }
      PositionsGrow(fields, id);
    }
  }

  lemma PositionsGrow(fields: seq<Option<Reference>>, id: string)
    requires fields != []
    ensures
      var n := |fields| - 1;
      Positions(fields, id)
      == Positions(fields[..n], id) + (if fields[n] == Some(Reference(Managed, id)) then {n} else {})
  {
  }

  /** Some field of the profile names the managed secret. */
  ghost predicate NamedBy(p: Profile, id: string) {
    var r := Some(Reference(Managed, id));
    || p.password == r || p.token == r || p.apiKey == r || p.privateKey == r || p.serviceAccount == r
    || p.caCertificate == r || p.clientCertificate == r || p.clientPrivateKey == r || p.clientPrivateKeyPassword == r
  }

  ghost function Once(field: Option<Reference>, id: string): nat {
    if field == Some(Reference(Managed, id)) then 1 else 0
  }

  /** How many fields of the profile name the managed secret. */
  ghost function TimesNamed(p: Profile, id: string): nat {
    Once(p.password, id) + Once(p.token, id) + Once(p.apiKey, id) + Once(p.privateKey, id) + Once(p.serviceAccount, id)
    + Once(p.caCertificate, id) + Once(p.clientCertificate, id) + Once(p.clientPrivateKey, id)
    + Once(p.clientPrivateKeyPassword, id)
  }

  /** How many of the first n fields name the managed secret. */
  ghost function NamedUpTo(fields: seq<Option<Reference>>, id: string, n: nat): nat
    requires n <= |fields|
  {
    if n == 0 then 0
    else NamedUpTo(fields, id, n - 1) + Once(fields[n - 1], id)
  }

  lemma {:induction false} OccurringUpTo(fields: seq<Option<Reference>>, id: string, n: nat)
    requires n <= |fields|
    ensures Occurring(ManagedOf(fields[..n]), id) == NamedUpTo(fields, id, n)
  {
    if n > 0 {
      OccurringUpTo(fields, id, n - 1);
      var last, managed := fields[n - 1], ManagedOf(fields[..n - 1]);
      assert fields[..n][..n - 1] == fields[..n - 1];
      if last.Some? && last.value.provider == Managed {
        assert ManagedOf(fields[..n]) == managed + [last.value];
        assert (managed + [last.value])[..|managed|] == managed;
      } else {
        assert ManagedOf(fields[..n]) == managed;
      }
    }
  }

  lemma NamedByFields(p: Profile, id: string)
    ensures NamedUpTo(ReferenceFields(p), id, 9) == TimesNamed(p, id)
  {
    var fields := ReferenceFields(p);
    forall n | 1 <= n <= 9 ensures NamedUpTo(fields, id, n) == NamedUpTo(fields, id, n - 1) + Once(fields[n - 1], id)
    {
    }
    assert NamedUpTo(fields, id, 0) == 0;
  }

  /** Both views of the list of fields: an identifier occurs once per position, and is in the set if anywhere. */
  lemma PositionsAgree(p: Profile, id: string)
    ensures Occurring(ManagedReferences(p), id) == |Positions(ReferenceFields(p), id)|
    ensures Occurring(ManagedReferences(p), id) == 0 <==> id !in ManagedIds(p)
    ensures id in ManagedIds(p) <==> exists i :: 0 <= i < 9 && ReferenceFields(p)[i] == Some(Reference(Managed, id))
  {
    var fields := ReferenceFields(p);
    ManagedPositions(fields, id);
    if i :| 0 <= i < 9 && fields[i] == Some(Reference(Managed, id)) {
      assert i in Positions(fields, id);
    }
    if Positions(fields, id) != {} {
      var i :| i in Positions(fields, id);
      assert 0 <= i < 9 && fields[i] == Some(Reference(Managed, id));
    }
  }

  /**
   * The list view names an identifier once for each of the nine fields that holds it as a managed secret; the
   * set view has it exactly when some field does, so exactly when the list names it.
   */
  lemma ViewsAgree(p: Profile, id: string)
    ensures Occurring(ManagedReferences(p), id) == TimesNamed(p, id)
    ensures id in ManagedIds(p) <==> NamedBy(p, id)
    ensures Occurring(ManagedReferences(p), id) == 0 <==> id !in ManagedIds(p)
  {
    var fields := ReferenceFields(p);
    assert fields[..9] == fields;
    OccurringUpTo(fields, id, 9);
    NamedByFields(p, id);
    PositionsAgree(p, id);
  }
}
