/**
 * The `NETWORK:ADAPTER_ID[:PORT]` option type of the DPM agent
 * (`NetworkAdapterMappingType`): one configuration string becomes a
 * (network, adapter id, port) triple, or is refused with a `ValueError`.
 *
 * The type itself is a stateless callable, so it is modelled as the pure
 * function `Parse`. Its behaviour is the one its unit tests pin down:
 *  - the network is non-empty, holds no ':' and keeps its case;
 *  - the adapter id is UUID-shaped (8-4-4-4-12 hex digits, either case)
 *    and comes out lower-cased;
 *  - the port is optional; absent or empty it becomes "0"; "0" is accepted,
 *    "2" and "a" are refused.
 * Which other port tokens the grammar admits ("1", say) is not pinned down,
 * so the admitted tokens are a parameter `ports`; every lemma holds for each
 * set allowed by `PinnedPorts`.
 */
module AdapterMapping {
  import opened Wrappers

  /** What a valid option value is turned into. */
  datatype Mapping = Mapping(network: string, adapterId: string, port: string)

  /** The single error the type raises (Python's ValueError), with the refused value. */
  datatype ParseError = InvalidValue(value: string)

  const SEPARATOR: char := ':'
  const DEFAULT_PORT: string := "0"

  // ---------------------------------------------------------------------------
  // Python's str.split(":") and its inverse ":".join(...)
  // ---------------------------------------------------------------------------

  /** ":".join(fields) */
  function Join(fields: seq<string>): string
    requires |fields| >= 1
  {
    if |fields| == 1 then fields[0] else fields[0] + [SEPARATOR] + Join(fields[1..])
  }

  /** Number of separators in `s`. */
  function SeparatorCount(s: string): nat
  {
    if s == [] then 0 else (if s[0] == SEPARATOR then 1 else 0) + SeparatorCount(s[1..])
  }

  /**
   * s.split(":"): the maximal separator-free pieces of `s`, in order; an empty
   * string gives one empty piece, and two adjacent separators an empty piece
   * between them.
   */
  function Split(s: string): (fields: seq<string>)
    ensures |fields| == SeparatorCount(s) + 1
    ensures forall i :: 0 <= i < |fields| ==> SEPARATOR !in fields[i]
    ensures Join(fields) == s
  {
    if s == [] then [[]]
    else if s[0] == SEPARATOR then
      var rest := Split(s[1..]);
      assert ([[]] + rest)[1..] == rest;
      [[]] + rest
    else
      var rest := Split(s[1..]);
      var fields := [[s[0]] + rest[0]] + rest[1..];
      assert fields[1..] == rest[1..];
      assert s == [s[0]] + s[1..];
      fields
  }

  /** A separator-free prefix glues onto the first piece of what follows it. */
  lemma {:induction false} SplitPrefix(x: string, t: string)
    requires SEPARATOR !in x
    ensures Split(x + t) == [x + Split(t)[0]] + Split(t)[1..]
  {
    if x != [] {
      assert (x + t)[1..] == x[1..] + t;
      assert (x + t)[0] == x[0];
      SplitPrefix(x[1..], t);
      assert [x[0]] + (x[1..] + Split(t)[0]) == x + Split(t)[0];
    } else {
      assert x + t == t;
      assert x + Split(t)[0] == Split(t)[0];
      assert Split(t) == [Split(t)[0]] + Split(t)[1..];
    }
  }

  /** Splitting a join of separator-free pieces gives the pieces back. */
  lemma {:induction false} SplitJoin(fields: seq<string>)
    requires |fields| >= 1
    requires forall i :: 0 <= i < |fields| ==> SEPARATOR !in fields[i]
    ensures Split(Join(fields)) == fields
  {
    if |fields| == 1 {
      SplitPrefix(fields[0], []);
      assert fields[0] + [] == fields[0];
    } else {
      var tail := fields[1..];
      SplitJoin(tail);
      var t := [SEPARATOR] + Join(tail);
      assert Join(fields) == fields[0] + t;
      SplitPrefix(fields[0], t);
      assert t[1..] == Join(tail);
      assert Split(t) == [[]] + tail;
      assert fields[0] + [] == fields[0];
      assert fields == [fields[0]] + tail;
    }
  }

  // ---------------------------------------------------------------------------
  // Tokens
  // ---------------------------------------------------------------------------

  predicate IsHexDigit(c: char)
  {
    '0' <= c <= '9' || 'a' <= c <= 'f' || 'A' <= c <= 'F'
  }

  /** 8-4-4-4-12 hex digits separated by '-', in either case. */
  predicate IsUuid(t: string)
  {
    && |t| == 36
    && forall i :: 0 <= i < 36 ==>
         if i == 8 || i == 13 || i == 18 || i == 23 then t[i] == '-' else IsHexDigit(t[i])
  }

  predicate IsUpper(c: char)
  {
    'A' <= c <= 'Z'
  }

  function LowerChar(c: char): char
  {
    if IsUpper(c) then (c as int + 32) as char else c
  }

  /** str.lower() on the ASCII letters (the only letters a UUID-shaped token holds). */
  function Lower(s: string): string
  {
    seq(|s|, i requires 0 <= i < |s| => LowerChar(s[i]))
  }

  /** A non-empty run of decimal digits: the shape of a port token. */
  predicate IsDigits(p: string)
  {
    |p| > 0 && forall i :: 0 <= i < |p| ==> '0' <= p[i] <= '9'
  }

  /**
   * The port tokens the grammar may admit, as far as the unit tests fix them:
   * "0" is admitted, "2" is not, and only decimal digit strings are.
   */
  ghost predicate PinnedPorts(ports: set<string>)
  {
    && DEFAULT_PORT in ports
    && "2" !in ports
    && forall p :: p in ports ==> IsDigits(p)
  }

  // ---------------------------------------------------------------------------
  // The type's __call__
  // ---------------------------------------------------------------------------

  /**
   * Parse one option value: two or three ':'-separated fields, a non-empty
   * network, a UUID-shaped adapter id (lower-cased), and an optional port that
   * defaults to "0" when absent or empty.
   */
  function Parse(ports: set<string>, value: string): (r: Result<Mapping, ParseError>)
    ensures r.Failure? ==> r.error == InvalidValue(value)
    ensures r.Success? ==> r.value.network != [] && SEPARATOR !in r.value.network
    ensures r.Success? ==> IsUuid(r.value.adapterId) && forall i :: 0 <= i < |r.value.adapterId| ==> !IsUpper(r.value.adapterId[i])
    ensures r.Success? ==> r.value.port == DEFAULT_PORT || r.value.port in ports
  {
    var fields := Split(value);
    if |fields| < 2 || |fields| > 3 || fields[0] == [] || !IsUuid(fields[1]) then
      Failure(InvalidValue(value))
    else
      var port := if |fields| == 3 then fields[2] else [];
      if port != [] && port !in ports then
        Failure(InvalidValue(value))
      else
        Success(Mapping(fields[0], Lower(fields[1]), if port == [] then DEFAULT_PORT else port))
  }

  /** The canonical text of a triple: "network:adapter:port". */
  function Serialize(m: Mapping): string
  {
    m.network + [SEPARATOR] + m.adapterId + [SEPARATOR] + m.port
  }

  /** What a successful parse can return: the normal form of a mapping. */
  ghost predicate IsNormalized(ports: set<string>, m: Mapping)
  {
    && m.network != []
    && SEPARATOR !in m.network
    && IsUuid(m.adapterId)
    && Lower(m.adapterId) == m.adapterId
    && m.port in ports
  }

  // ---------------------------------------------------------------------------
  // Properties
  // ---------------------------------------------------------------------------

  lemma LowerUuid(a: string)
    requires IsUuid(a)
    ensures IsUuid(Lower(a)) && Lower(Lower(a)) == Lower(a)
  {
  }

  /** A value's acceptance depends only on its fields: the grammar, both ways. */
  lemma ParseAcceptsIff(ports: set<string>, fields: seq<string>)
    requires |fields| >= 1
    requires forall i :: 0 <= i < |fields| ==> SEPARATOR !in fields[i]
    ensures Parse(ports, Join(fields)).Success? <==>
      && 2 <= |fields| <= 3
      && fields[0] != []
      && IsUuid(fields[1])
      && (|fields| == 3 ==> fields[2] == [] || fields[2] in ports)
  {
    SplitJoin(fields);
  }

  /**
   * With a valid network and adapter, "net:adapter:port" is accepted exactly
   * when the port is empty or admitted, and then gives the network as given,
   * the lower-cased adapter and the port (or "0" if empty).
   */
  lemma ParseThreeFields(ports: set<string>, network: string, adapter: string, port: string)
    requires network != [] && SEPARATOR !in network
    requires IsUuid(adapter)
    requires SEPARATOR !in port
    ensures var value := network + [SEPARATOR] + adapter + [SEPARATOR] + port;
      Parse(ports, value)
        == if port == [] || port in ports
           then Success(Mapping(network, Lower(adapter), if port == [] then DEFAULT_PORT else port))
           else Failure(InvalidValue(value))
  {
    assert SEPARATOR !in adapter;
    var fields := [network, adapter, port];
    assert Join(fields) == network + [SEPARATOR] + adapter + [SEPARATOR] + port by {
      assert fields[1..] == [adapter, port];
      assert fields[1..][1..] == [port];
      assert Join([adapter, port]) == adapter + [SEPARATOR] + port;
    }
    SplitJoin(fields);
  }

  /** "net:adapter" parses exactly as "net:adapter:0" and "net:adapter:" do. */
  lemma ParseTwoFields(ports: set<string>, network: string, adapter: string)
    requires network != [] && SEPARATOR !in network
    requires IsUuid(adapter)
    ensures Parse(ports, network + [SEPARATOR] + adapter)
         == Success(Mapping(network, Lower(adapter), DEFAULT_PORT))
  {
    assert SEPARATOR !in adapter;
    var fields := [network, adapter];
    assert Join(fields) == network + [SEPARATOR] + adapter by {
      assert fields[1..] == [adapter];
    }
    SplitJoin(fields);
  }

  /** Omitting the port, leaving it empty and writing "0" are the same. */
  lemma OmittedPortIsZero(ports: set<string>, network: string, adapter: string)
    requires PinnedPorts(ports)
    requires network != [] && SEPARATOR !in network
    requires IsUuid(adapter)
    ensures var r := Parse(ports, network + [SEPARATOR] + adapter);
      && r == Parse(ports, network + [SEPARATOR] + adapter + [SEPARATOR])
      && r == Parse(ports, network + [SEPARATOR] + adapter + [SEPARATOR] + DEFAULT_PORT)
      && r.Success? && r.value.port == DEFAULT_PORT
  {
    ParseTwoFields(ports, network, adapter);
    ParseThreeFields(ports, network, adapter, []);
    assert network + [SEPARATOR] + adapter + [SEPARATOR] + [] == network + [SEPARATOR] + adapter + [SEPARATOR];
    ParseThreeFields(ports, network, adapter, DEFAULT_PORT);
  }

  /** A value with no separator, or more than two, is refused. */
  lemma FieldCountRejected(ports: set<string>, value: string)
    requires SeparatorCount(value) == 0 || SeparatorCount(value) > 2
    ensures Parse(ports, value) == Failure(InvalidValue(value))
  {
  }

  /** Every successful parse is in normal form, and it came from one of the three shapes of input. */
  lemma ParseSound(ports: set<string>, value: string)
    requires PinnedPorts(ports)
    requires Parse(ports, value).Success?
    ensures IsNormalized(ports, Parse(ports, value).value)
    ensures var m := Parse(ports, value).value;
      exists adapter :: Lower(adapter) == m.adapterId && IsUuid(adapter) &&
        (|| value == m.network + [SEPARATOR] + adapter
         || value == m.network + [SEPARATOR] + adapter + [SEPARATOR]
         || value == m.network + [SEPARATOR] + adapter + [SEPARATOR] + m.port)
  {
    var fields := Split(value);
    var m := Parse(ports, value).value;
    var adapter := fields[1];
    LowerUuid(adapter);
    assert Lower(adapter) == m.adapterId;
    if |fields| == 2 {
      assert value == Join(fields) == fields[0] + [SEPARATOR] + Join(fields[1..]);
      assert fields[1..] == [adapter];
      assert value == m.network + [SEPARATOR] + adapter;
    } else {
      assert value == Join(fields) == fields[0] + [SEPARATOR] + Join(fields[1..]);
      assert fields[1..] == [adapter, fields[2]];
      assert fields[1..][1..] == [fields[2]];
      assert Join(fields[1..]) == adapter + [SEPARATOR] + fields[2];
      assert value == m.network + [SEPARATOR] + (adapter + [SEPARATOR] + fields[2]);
      if fields[2] == [] {
        assert value == m.network + [SEPARATOR] + adapter + [SEPARATOR];
      } else {
        assert value == m.network + [SEPARATOR] + adapter + [SEPARATOR] + m.port;
      }
    }
  }

  /** Serializing a normal-form triple and parsing it gives the triple back. */
  lemma SerializeParseRoundTrip(ports: set<string>, m: Mapping)
    requires PinnedPorts(ports)
    requires IsNormalized(ports, m)
    ensures Parse(ports, Serialize(m)) == Success(m)
  {
    assert IsDigits(m.port);
    forall i | 0 <= i < |m.port|
      ensures m.port[i] != SEPARATOR
    {
    }
    ParseThreeFields(ports, m.network, m.adapterId, m.port);
  }

  /** Parsing is a normalisation: re-parsing the canonical text of a result gives the same result. */
  lemma ParseIdempotent(ports: set<string>, value: string)
    requires PinnedPorts(ports)
    requires Parse(ports, value).Success?
    ensures Parse(ports, Serialize(Parse(ports, value).value)) == Parse(ports, value)
  {
    ParseSound(ports, value);
    SerializeParseRoundTrip(ports, Parse(ports, value).value);
  }

  /** A separator-free adapter token that is not UUID-shaped is refused, whatever follows it. */
  lemma NonUuidAdapterRejected(ports: set<string>, network: string, adapter: string, rest: string)
    requires SEPARATOR !in network && SEPARATOR !in adapter
    requires !IsUuid(adapter)
    requires rest == [] || rest[0] == SEPARATOR
    ensures Parse(ports, network + [SEPARATOR] + adapter + rest).Failure?
  {
    var value := network + [SEPARATOR] + adapter + rest;
    assert value == network + ([SEPARATOR] + adapter + rest);
    SplitPrefix(network, [SEPARATOR] + adapter + rest);
    assert ([SEPARATOR] + adapter + rest)[1..] == adapter + rest;
    SplitPrefix(adapter, rest);
    assert Split(value)[1] == adapter + Split(rest)[0];
    if rest == [] {
      assert Split(value)[1] == adapter;
    } else {
      assert Split(rest)[0] == [] by {
        assert Split(rest) == [[]] + Split(rest[1..]);
      }
      assert Split(value)[1] == adapter;
    }
  }
}
