/**
 * The concrete values the option type's unit tests feed it, and what each
 * one gives, derived from the general lemmas of `AdapterMapping`.
 */
module AdapterMappingCases {
  import opened Wrappers
  import opened AdapterMapping

  const VALID_DPM_OBJECT_ID: string := "fa1f2466-12df-311a-804c-4ed2cc1d656b"
  const VALID_DPM_OBJECT_ID_UC: string := "FA1F2466-12DF-311A-804C-4ED2CC1D656B"

  lemma ValidMapping(ports: set<string>)
    requires PinnedPorts(ports)
    ensures Parse(ports, "physnet:" + VALID_DPM_OBJECT_ID + ":0")
         == Success(Mapping("physnet", VALID_DPM_OBJECT_ID, "0"))
  {
    assert "physnet:" + VALID_DPM_OBJECT_ID + ":0"
        == "physnet" + [SEPARATOR] + VALID_DPM_OBJECT_ID + [SEPARATOR] + "0";
    assert Lower(VALID_DPM_OBJECT_ID) == VALID_DPM_OBJECT_ID;
    ParseThreeFields(ports, "physnet", VALID_DPM_OBJECT_ID, "0");
  }

  lemma UpperCaseAdapterIdLowered(ports: set<string>)
    requires PinnedPorts(ports)
    ensures Parse(ports, "physnet:" + VALID_DPM_OBJECT_ID_UC + ":0")
         == Success(Mapping("physnet", VALID_DPM_OBJECT_ID, "0"))
  {
    assert "physnet:" + VALID_DPM_OBJECT_ID_UC + ":0"
        == "physnet" + [SEPARATOR] + VALID_DPM_OBJECT_ID_UC + [SEPARATOR] + "0";
    assert Lower(VALID_DPM_OBJECT_ID_UC) == VALID_DPM_OBJECT_ID;
    ParseThreeFields(ports, "physnet", VALID_DPM_OBJECT_ID_UC, "0");
  }

  lemma NetworkCaseKept(ports: set<string>)
    requires PinnedPorts(ports)
    ensures Parse(ports, "PHysnet:" + VALID_DPM_OBJECT_ID_UC + ":0").Success?
    ensures Parse(ports, "PHysnet:" + VALID_DPM_OBJECT_ID_UC + ":0").value.network == "PHysnet"
  {
    assert "PHysnet:" + VALID_DPM_OBJECT_ID_UC + ":0"
        == "PHysnet" + [SEPARATOR] + VALID_DPM_OBJECT_ID_UC + [SEPARATOR] + "0";
    ParseThreeFields(ports, "PHysnet", VALID_DPM_OBJECT_ID_UC, "0");
  }

  lemma EmptyPortDefaults(ports: set<string>)
    ensures Parse(ports, "physnet:" + VALID_DPM_OBJECT_ID + ":")
         == Success(Mapping("physnet", VALID_DPM_OBJECT_ID, "0"))
  {
    assert "physnet:" + VALID_DPM_OBJECT_ID + ":"
        == "physnet" + [SEPARATOR] + VALID_DPM_OBJECT_ID + [SEPARATOR] + "";
    assert Lower(VALID_DPM_OBJECT_ID) == VALID_DPM_OBJECT_ID;
    ParseThreeFields(ports, "physnet", VALID_DPM_OBJECT_ID, "");
  }

  lemma MissingPortDefaults(ports: set<string>)
    ensures Parse(ports, "physnet:" + VALID_DPM_OBJECT_ID)
         == Success(Mapping("physnet", VALID_DPM_OBJECT_ID, "0"))
  {
    assert "physnet:" + VALID_DPM_OBJECT_ID == "physnet" + [SEPARATOR] + VALID_DPM_OBJECT_ID;
    assert Lower(VALID_DPM_OBJECT_ID) == VALID_DPM_OBJECT_ID;
    ParseTwoFields(ports, "physnet", VALID_DPM_OBJECT_ID);
  }

  lemma EmptyValueRejected(ports: set<string>)
    ensures Parse(ports, "").Failure?
  {
  }

  lemma NoSeparatorRejected(ports: set<string>)
    ensures Parse(ports, "foobar").Failure?
  {
  }

  lemma PortTwoRejected(ports: set<string>)
    requires PinnedPorts(ports)
    ensures Parse(ports, "physnet:" + VALID_DPM_OBJECT_ID + ":" + "2").Failure?
  {
    assert "physnet:" + VALID_DPM_OBJECT_ID + ":" + "2"
        == "physnet" + [SEPARATOR] + VALID_DPM_OBJECT_ID + [SEPARATOR] + "2";
    ParseThreeFields(ports, "physnet", VALID_DPM_OBJECT_ID, "2");
  }

  lemma PortLetterRejected(ports: set<string>)
    requires PinnedPorts(ports)
    ensures Parse(ports, "physnet:" + VALID_DPM_OBJECT_ID + ":" + "a").Failure?
  {
    assert !IsDigits("a") by {
      assert "a"[0] == 'a';
    }
    assert "physnet:" + VALID_DPM_OBJECT_ID + ":" + "a"
        == "physnet" + [SEPARATOR] + VALID_DPM_OBJECT_ID + [SEPARATOR] + "a";
    ParseThreeFields(ports, "physnet", VALID_DPM_OBJECT_ID, "a");
  }

  lemma AdapterIdRejected(ports: set<string>)
    ensures Parse(ports, "physnet:foo:1").Failure?
  {
  }

  /** A network holding a ':' is refused, with or without a port. */
  lemma NetworkWithSeparatorRejected(ports: set<string>)
    ensures Parse(ports, "phys:net:" + VALID_DPM_OBJECT_ID).Failure?
    ensures Parse(ports, "phys:net:" + VALID_DPM_OBJECT_ID + ":").Failure?
    ensures Parse(ports, "phys:net:" + VALID_DPM_OBJECT_ID + ":1").Failure?
  {
    var id := VALID_DPM_OBJECT_ID;
    assert "phys:net:" + id == "phys" + [SEPARATOR] + "net" + (":" + id);
    NonUuidAdapterRejected(ports, "phys", "net", ":" + id);
    assert "phys:net:" + id + ":" == "phys" + [SEPARATOR] + "net" + (":" + id + ":");
    NonUuidAdapterRejected(ports, "phys", "net", ":" + id + ":");
    assert "phys:net:" + id + ":1" == "phys" + [SEPARATOR] + "net" + (":" + id + ":1");
    NonUuidAdapterRejected(ports, "phys", "net", ":" + id + ":1");
  }

  /** Extra leading fields are refused. */
  lemma ExtraLeadingFieldRejected(ports: set<string>)
    ensures Parse(ports, "foo:phys:net:" + VALID_DPM_OBJECT_ID).Failure?
  {
    var id := VALID_DPM_OBJECT_ID;
    assert "foo:phys:net:" + id == "foo" + [SEPARATOR] + "phys" + (":net:" + id);
    NonUuidAdapterRejected(ports, "foo", "phys", ":net:" + id);
  }

  /** An empty network is refused. */
  lemma EmptyNetworkRejected(ports: set<string>)
    ensures Parse(ports, ":net:" + VALID_DPM_OBJECT_ID).Failure?
    ensures Parse(ports, "::net:" + VALID_DPM_OBJECT_ID).Failure?
  {
  }
}
