/** Turning one loaded compose service's parts into spec form (internal/spec/parse.go). */
module Convert {
  import opened Basics
  import opened Spec
  import opened Swarm

  /** compose keeps the published port as text. */
  datatype RawPort = RawPort(target: nat, published: string, protocol: string, mode: string)

  datatype RawHealthcheck = RawHealthcheck(
    test: seq<string>, disable: bool, interval: Option<int>, timeout: Option<int>, startPeriod: Option<int>,
    retries: Option<nat>)

  /** resolved is what the configured allowlists make of a bind source; None is a refusal. */
  datatype RawVolume = RawVolume(
    kind: string, source: string, target: string, readOnly: bool, bindOptions: bool, exotic: bool, resolved: Option<string>)

  datatype RawUlimit = RawUlimit(name: string, single: int, soft: int, hard: int)

  // ---- Ports ----

  predicate IsDigit(c: char) {
    '0' <= c <= '9'
  }

  function Digit(c: char): nat
    requires IsDigit(c)
  {
    c as int - '0' as int
  }

  /** The number a nonempty text of decimal digits denotes. */
  function Numeral(s: string): Option<nat> {
    if s == "" || !IsDigit(s[|s| - 1]) then None
    else if |s| == 1 then Some(Digit(s[0]))
    else
      var init := Numeral(s[..|s| - 1]);
      if init.None? then None else Some(10 * init.value + Digit(s[|s| - 1]))
  }

  /** Exactly the nonempty texts of digits denote a number. */
  lemma {:induction false} NumeralMeaning(s: string)
    ensures Numeral(s).Some? <==> s != "" && forall c :: c in s ==> '0' <= c <= '9'
  {
    if s != "" {
      var init, last := s[..|s| - 1], s[|s| - 1];
      assert last in s && s == init + [last];
      if |s| > 1 {
        NumeralMeaning(init);
        assert forall c :: c in s <==> c in init || c == last;
      }
    }
  }

  function Decimal(n: nat): string {
    if n < 10 then [('0' as int + n) as char] else Decimal(n / 10) + [('0' as int + n % 10) as char]
  }

  lemma {:induction false} NumeralReturns(n: nat)
    ensures Numeral(Decimal(n)) == Some(n)
  {
    if n >= 10 {
      NumeralReturns(n / 10);
      var s := Decimal(n);
      assert s[..|s| - 1] == Decimal(n / 10) && Decimal(n / 10) != [];
    }
  }

  const UINT32_BOUND := 0x1_0000_0000

  /** An omitted published port is 0; ranges and anything else that is not a 32-bit number are refused. */
  function Published(s: string): Option<nat> {
    if s == "" then Some(0)
    else if Numeral(s).Some? && Numeral(s).value < UINT32_BOUND then Numeral(s)
    else None
  }

  /** Every 32-bit port number is understood, and no larger one. */
  lemma PublishedExactly(n: nat)
    ensures Published(Decimal(n)) == if n < UINT32_BOUND then Some(n) else None
  {
    NumeralReturns(n);
  }

  function PortOf(p: RawPort): PortSpec {
    PortSpec(p.target, if Published(p.published).Some? then Published(p.published).value else 0, p.protocol, p.mode)
  }

  ghost predicate PortsConvert(ports: seq<RawPort>) {
    forall p :: p in ports ==> Published(p.published).Some?
  }

  method ServicePorts(ports: seq<RawPort>) returns (r: Option<Slice<PortSpec>>)
    ensures r.Some? <==> PortsConvert(ports)
    ensures r.Some? ==> r.value == AsSlice(Map(ports, PortOf))
  {
    var out: seq<PortSpec> := [];
    for i := 0 to |ports|
      invariant PortsConvert(ports[..i])
      invariant |out| == i && forall j :: 0 <= j < i ==> out[j] == PortOf(ports[j])
    {
      var published := Published(ports[i].published);
      if published.None? {
        assert ports[i] in ports;
        return None;
      }
      out := out + [PortSpec(ports[i].target, published.value, ports[i].protocol, ports[i].mode)];
    }
    assert ports[..|ports|] == ports && out == Map(ports, PortOf);
    return Some(AsSlice(out));
  }

  // ---- Healthcheck ----

  /** No section, disable: true and test: ["NONE"] all mean that there is no healthcheck. */
  predicate NoHealthcheck(hc: Option<RawHealthcheck>) {
    hc.None? || hc.value.disable || (hc.value.test != [] && hc.value.test[0] == "NONE")
  }

  /** A healthcheck without a test would inherit the image's. */
  predicate HealthcheckConverts(hc: Option<RawHealthcheck>) {
    NoHealthcheck(hc) || hc.value.test != []
  }

  function HealthcheckOf(hc: Option<RawHealthcheck>): (r: Option<HealthcheckSpec>)
    ensures r.None? <==> NoHealthcheck(hc)
    ensures r.Some? && HealthcheckConverts(hc) ==> Elems(r.value.test) != []
  {
    if NoHealthcheck(hc) then None
    else Some(HealthcheckSpec(
                Some(hc.value.test), OrZero(hc.value.interval), OrZero(hc.value.timeout),
                if hc.value.retries.Some? then hc.value.retries.value else 0, OrZero(hc.value.startPeriod)))
  }

  // ---- Volumes ----

  predicate VolumeConverts(v: RawVolume) {
    && !v.exotic
    && ((v.kind == "volume" && !v.bindOptions) || (v.kind == "bind" && v.resolved.Some?))
  }

  function VolumeOf(v: RawVolume): VolumeMount {
    if v.kind == "bind" && v.resolved.Some? then VolumeMount(v.resolved.value, v.target, v.readOnly, true)
    else VolumeMount(v.source, v.target, v.readOnly, false)
  }

  ghost predicate VolumesConvert(volumes: seq<RawVolume>) {
    forall v :: v in volumes ==> VolumeConverts(v)
  }

  method ServiceVolumes(volumes: seq<RawVolume>) returns (r: Option<Slice<VolumeMount>>)
    ensures r.Some? <==> VolumesConvert(volumes)
    ensures r.Some? ==> r.value == AsSlice(Map(volumes, VolumeOf))
  {
    var out: seq<VolumeMount> := [];
    for i := 0 to |volumes|
      invariant VolumesConvert(volumes[..i])
      invariant |out| == i && forall j :: 0 <= j < i ==> out[j] == VolumeOf(volumes[j])
    {
      var v := volumes[i];
      assert v in volumes;
      if v.exotic {
        return None;
      }
      if v.kind == "volume" {
        if v.bindOptions { return None; }
        out := out + [VolumeMount(v.source, v.target, v.readOnly, false)];
      } else if v.kind == "bind" {
        if v.resolved.None? { return None; }
        out := out + [VolumeMount(v.resolved.value, v.target, v.readOnly, true)];
      } else {
        return None;
      }
    }
    assert volumes[..|volumes|] == volumes && out == Map(volumes, VolumeOf);
    return Some(AsSlice(out));
  }

  // ---- Ulimits ----

  /** A single value sets both limits. */
  function UlimitOf(u: RawUlimit): UlimitSpec {
    if u.single != 0 then UlimitSpec(u.name, u.single, u.single) else UlimitSpec(u.name, u.soft, u.hard)
  }

  method ServiceUlimits(ulimits: seq<RawUlimit>) returns (r: Slice<UlimitSpec>)
    ensures r == AsSlice(Map(ulimits, UlimitOf))
  {
    var out: seq<UlimitSpec> := [];
    for i := 0 to |ulimits|
      invariant |out| == i && forall j :: 0 <= j < i ==> out[j] == UlimitOf(ulimits[j])
    {
      var soft, hard := ulimits[i].soft, ulimits[i].hard;
      if ulimits[i].single != 0 {
        soft, hard := ulimits[i].single, ulimits[i].single;
      }
      out := out + [UlimitSpec(ulimits[i].name, soft, hard)];
    }
    assert out == Map(ulimits, UlimitOf);
    r := AsSlice(out);
  }

  // ---- What each part becomes ----

  /** An omitted published port is 0; one written as a decimal number is that number. */
  ghost predicate PortFrom(raw: RawPort, p: PortSpec) {
    && p.target == raw.target && p.protocol == raw.protocol && p.mode == raw.mode
    && (raw.published == "" ==> p.published == 0)
    && forall n: nat :: raw.published == Decimal(n) && n < 0x1_0000_0000 ==> p.published == n
  }

  ghost predicate DurationFrom(raw: Option<int>, d: int) {
    (raw.None? ==> d == 0) && (raw.Some? ==> d == raw.value)
  }

  /** A healthcheck that is neither disabled nor NONE keeps its test, and every setting it states. */
  ghost predicate HealthcheckFrom(raw: Option<RawHealthcheck>, r: Option<HealthcheckSpec>) {
    if raw.None? || raw.value.disable || (raw.value.test != [] && raw.value.test[0] == "NONE") then r.None?
    else
      && r.Some? && r.value.test == Some(raw.value.test)
      && DurationFrom(raw.value.interval, r.value.interval) && DurationFrom(raw.value.timeout, r.value.timeout)
      && DurationFrom(raw.value.startPeriod, r.value.startPeriod)
      && (raw.value.retries.None? ==> r.value.retries == 0)
      && (raw.value.retries.Some? ==> r.value.retries == raw.value.retries.value)
  }

  /** A bind mount is mounted from where its source resolves to. */
  ghost predicate VolumeFrom(raw: RawVolume, v: VolumeMount) {
    && v.target == raw.target && v.readOnly == raw.readOnly && (v.bind <==> raw.kind == "bind")
    && v.source == if raw.kind == "bind" && raw.resolved.Some? then raw.resolved.value else raw.source
  }

  ghost predicate UlimitFrom(raw: RawUlimit, u: UlimitSpec) {
    && u.name == raw.name
    && (raw.single != 0 ==> u.soft == raw.single == u.hard)
    && (raw.single == 0 ==> u.soft == raw.soft && u.hard == raw.hard)
  }

  lemma PortConverted(raw: RawPort)
    ensures PortFrom(raw, PortOf(raw))
  {
    forall n: nat | raw.published == Decimal(n) && n < 0x1_0000_0000 ensures PortOf(raw).published == n {
      PublishedExactly(n);
    }
  }

  lemma VolumeConverted(raw: RawVolume)
    requires VolumeConverts(raw)
    ensures VolumeFrom(raw, VolumeOf(raw))
  {
  }

  lemma PartsConverted(ports: seq<RawPort>, hc: Option<RawHealthcheck>, ulimits: seq<RawUlimit>)
    ensures forall i :: 0 <= i < |ports| ==> PortFrom(ports[i], Map(ports, PortOf)[i])
    ensures HealthcheckFrom(hc, HealthcheckOf(hc))
    ensures forall i :: 0 <= i < |ulimits| ==> UlimitFrom(ulimits[i], Map(ulimits, UlimitOf)[i])
  {
    forall i | 0 <= i < |ports| ensures PortFrom(ports[i], Map(ports, PortOf)[i]) {
      PortConverted(ports[i]);
    }
  }

  /** The text of a published port is usable: empty, or a number of 32 bits. */
  ghost predicate PublishedWritten(s: string) {
    || s == ""
    || ((forall c :: c in s ==> '0' <= c <= '9') && Numeral(s).Some? && Numeral(s).value < 0x1_0000_0000)
  }

  lemma PublishedAccepted(s: string)
    ensures Published(s).Some? <==> PublishedWritten(s)
  {
    NumeralMeaning(s);
  }
}
