/**
 * The scanner's local SQLite store as the Go code writes it: the `hosts` table
 * keyed by (ip, interface_name), written by upsertHost and SaveHostsToDB and
 * marked offline by DeepScan, and the `external_networks` table keyed by
 * public_ip.
 */
module Store {
  import opened Wrappers
  import opened Records
  import opened Payload

  /** The UNIQUE key of the `hosts` table. */
  datatype HostKey = HostKey(ip: string, interfaceName: string)

  /** The other columns of a `hosts` row. */
  datatype Row = Row(
    name: string,
    osDetails: string,
    macAddress: string,
    openPorts: string,
    nextHop: string,
    networkName: string,
    lastSeen: Time,
    onlineStatus: string)

  type HostsTable = map<HostKey, Row>

  function KeyOf(h: HostRecord): HostKey {
    HostKey(h.ip, h.interfaceName)
  }

  /** upsertHost's defaults: network "LAN", status "online" and the current time, each only when unset. */
  function Defaulted(h: HostRecord, now: Time): (d: HostRecord)
    ensures d.networkName == (if h.networkName == "" then "LAN" else h.networkName)
    ensures d.onlineStatus == (if h.onlineStatus == "" then "online" else h.onlineStatus)
    ensures d.lastSeen == (if h.lastSeen == ZeroTime then now else h.lastSeen)
    ensures d == h.(networkName := d.networkName, onlineStatus := d.onlineStatus, lastSeen := d.lastSeen)
  {
    h.(networkName := if h.networkName == "" then "LAN" else h.networkName,
       onlineStatus := if h.onlineStatus == "" then "online" else h.onlineStatus,
       lastSeen := if h.lastSeen == ZeroTime then now else h.lastSeen)
  }

  /** The row an INSERT writes for an already defaulted record. */
  function InsertedRow(d: HostRecord): Row {
    Row(d.hostname, d.os, d.mac, PortsSummary(d), d.nextHop, d.networkName, d.lastSeen, d.onlineStatus)
  }

  /**
   * upsertHost on the table: insert the defaulted record, or on a key conflict
   * overwrite every column but network_name, which keeps its first value.
   */
  function UpsertRow(t: HostsTable, h: HostRecord, now: Time): (r: HostsTable)
    ensures r.Keys == t.Keys + {KeyOf(h)}
    ensures forall k :: k in t && k != KeyOf(h) ==> r[k] == t[k]
    ensures KeyOf(h) in t ==> r[KeyOf(h)] == InsertedRow(Defaulted(h, now)).(networkName := t[KeyOf(h)].networkName)
    ensures KeyOf(h) !in t ==> r[KeyOf(h)] == InsertedRow(Defaulted(h, now))
  {
    var k := KeyOf(h);
    var row := InsertedRow(Defaulted(h, now));
    if k in t then t[k := row.(networkName := t[k].networkName)] else t[k := row]
  }

  /** Upserting the same record twice is upserting it once. */
  lemma UpsertIdempotent(t: HostsTable, h: HostRecord, now: Time)
    ensures UpsertRow(UpsertRow(t, h, now), h, now) == UpsertRow(t, h, now)
  {
    var once := UpsertRow(t, h, now);
    var twice := UpsertRow(once, h, now);
    assert twice.Keys == once.Keys;
    forall k | k in once
      ensures twice[k] == once[k]
    {
    }
  }

  /** The records upserted one after the other, in order. */
  function UpsertAll(t: HostsTable, hs: seq<HostRecord>, now: Time): (r: HostsTable)
    ensures t.Keys <= r.Keys
    decreases |hs|
  {
    if |hs| == 0 then t else UpsertRow(UpsertAll(t, hs[..|hs| - 1], now), hs[|hs| - 1], now)
  }

  /** Upserting a batch touches only the batch's own keys. */
  lemma {:induction false} UpsertAllElsewhere(t: HostsTable, hs: seq<HostRecord>, now: Time, k: HostKey)
    requires forall i :: 0 <= i < |hs| ==> KeyOf(hs[i]) != k
    ensures k in UpsertAll(t, hs, now) <==> k in t
    ensures k in t ==> UpsertAll(t, hs, now)[k] == t[k]
    decreases |hs|
  {
    if |hs| > 0 {
      UpsertAllElsewhere(t, hs[..|hs| - 1], now, k);
    }
  }

  /**
   * Any number of upserts to one key leave exactly one row for it: the last
   * record's columns, except network_name, which keeps the value of the first
   * insert.
   */
  lemma {:induction false} LastUpsertWins(t: HostsTable, hs: seq<HostRecord>, now: Time, k: HostKey)
    requires |hs| > 0
    requires forall i :: 0 <= i < |hs| ==> KeyOf(hs[i]) == k
    ensures UpsertAll(t, hs, now).Keys == t.Keys + {k}
    ensures UpsertAll(t, hs, now)[k] == InsertedRow(Defaulted(hs[|hs| - 1], now)).(networkName :=
      if k in t then t[k].networkName else Defaulted(hs[0], now).networkName)
    decreases |hs|
  {
    if |hs| > 1 {
      LastUpsertWins(t, hs[..|hs| - 1], now, k);
    } else {
      assert hs[..0] == [];
    }
  }

  /** Every row on one of the named interfaces marked offline; nothing else changes. */
  function MarkOffline(t: HostsTable, names: set<string>): (r: HostsTable)
    ensures r.Keys == t.Keys
    ensures forall k :: k in t && k.interfaceName in names ==> r[k] == t[k].(onlineStatus := "offline")
    ensures forall k :: k in t && k.interfaceName !in names ==> r[k] == t[k]
  {
    map k | k in t :: if k.interfaceName in names then t[k].(onlineStatus := "offline") else t[k]
  }

  /** Marking interfaces one at a time is marking them all at once. */
  lemma MarkOfflineStep(t: HostsTable, names: set<string>, name: string)
    ensures MarkOffline(MarkOffline(t, names), {name}) == MarkOffline(t, names + {name})
  {
  }

  /** DeepScan's unscoped UPDATE: every row offline. */
  function AllOffline(t: HostsTable): (r: HostsTable)
    ensures r.Keys == t.Keys
    ensures forall k :: k in t ==> r[k] == t[k].(onlineStatus := "offline")
  {
    map k | k in t :: t[k].(onlineStatus := "offline")
  }

  /** The batch's non-empty interface names, the ones SaveHostsToDB marks offline. */
  function BatchInterfaces(hs: seq<HostRecord>): (r: set<string>)
    ensures forall name :: name in r <==> name != "" && exists i :: 0 <= i < |hs| && hs[i].interfaceName == name
  {
    set i | 0 <= i < |hs| && hs[i].interfaceName != "" :: hs[i].interfaceName
  }

  /** The position of the first refused upsert of a batch, or the batch length when none is refused. */
  function FirstRefused(n: nat, refused: map<nat, string>): (r: nat)
    ensures r <= n
    ensures r < n ==> r in refused
    ensures forall i :: 0 <= i < r ==> i !in refused
    decreases n
  {
    if n == 0 then 0
    else
      var r := FirstRefused(n - 1, refused);
      if r < n - 1 then r else if n - 1 in refused then n - 1 else n
  }

  /** The `hosts` table after SaveHostsToDB, when the store opens. */
  function SavedTable(t: HostsTable, hs: seq<HostRecord>, now: Time, refused: map<nat, string>): (r: HostsTable)
    ensures t.Keys <= r.Keys
  {
    if |hs| == 0 then t
    else UpsertAll(MarkOffline(t, BatchInterfaces(hs)), hs[..FirstRefused(|hs|, refused)], now)
  }

  /**
   * SaveHostsToDB leaves alone every row on an interface the batch does not
   * mention, unless a record of the batch has that very key; and it marks
   * offline every row of a mentioned interface that no record refreshes.
   */
  lemma SaveScopedToBatch(t: HostsTable, hs: seq<HostRecord>, now: Time, refused: map<nat, string>, k: HostKey)
    requires k in t
    requires forall i :: 0 <= i < |hs| ==> KeyOf(hs[i]) != k
    ensures k.interfaceName !in BatchInterfaces(hs) ==> SavedTable(t, hs, now, refused)[k] == t[k]
    ensures k.interfaceName in BatchInterfaces(hs) ==>
      SavedTable(t, hs, now, refused)[k] == t[k].(onlineStatus := "offline")
  {
    if |hs| > 0 {
      var n := FirstRefused(|hs|, refused);
      UpsertAllElsewhere(MarkOffline(t, BatchInterfaces(hs)), hs[..n], now, k);
    }
  }

  /** The first loop of SaveHostsToDB: the batch's non-empty interface names. */
  method CollectInterfaces(hs: seq<HostRecord>) returns (interfaces: set<string>)
    ensures interfaces == BatchInterfaces(hs)
  {
    interfaces := {};
    for i := 0 to |hs|
      invariant interfaces == BatchInterfaces(hs[..i])
    {
      assert hs[..i + 1] == hs[..i] + [hs[i]];
      if hs[i].interfaceName != "" {
        interfaces := interfaces + {hs[i].interfaceName};
      }
    }
    assert hs[..|hs|] == hs;
  }

  /** A stored external address and the time it was last seen. */
  type ExternalTable = map<string, Time>

  /**
   * The local store. The two tables are the fields that the scanner's SQL
   * statements update in place.
   */
  class LocalDb {
    var hosts: HostsTable
    var externalNetworks: ExternalTable

    constructor (hosts0: HostsTable, external0: ExternalTable)
      ensures hosts == hosts0 && externalNetworks == external0
    {
      hosts := hosts0;
      externalNetworks := external0;
    }

    /**
     * upsertHost. `refusal` is the error the statement fails with, if it fails;
     * a failed statement changes nothing.
     */
    method Upsert(h: HostRecord, now: Time, refusal: Option<string>) returns (err: Option<string>)
      modifies this
      ensures err == refusal
      ensures refusal.None? ==> hosts == UpsertRow(old(hosts), h, now)
      ensures refusal.Some? ==> hosts == old(hosts)
      ensures externalNetworks == old(externalNetworks)
    {
      var host := h;
      if host.networkName == "" {
        host := host.(networkName := "LAN");
      }
      if host.lastSeen == ZeroTime {
        host := host.(lastSeen := now);
      }
      if host.onlineStatus == "" {
        host := host.(onlineStatus := "online");
      }
      assert host == Defaulted(h, now);
      var openPorts := ComputePortsSummary(host);
      if refusal.Some? {
        return refusal;
      }
      var key := HostKey(host.ip, host.interfaceName);
      var row := Row(host.hostname, host.os, host.mac, openPorts, host.nextHop,
                     host.networkName, host.lastSeen, host.onlineStatus);
      if key in hosts {
        row := row.(networkName := hosts[key].networkName);
      }
      hosts := hosts[key := row];
      err := None;
    }

    /** UPDATE hosts SET online_status = 'offline' WHERE interface_name = name. */
    method MarkInterfaceOffline(name: string)
      modifies this
      ensures hosts == MarkOffline(old(hosts), {name})
      ensures externalNetworks == old(externalNetworks)
    {
      hosts := map k | k in hosts :: if k.interfaceName == name then hosts[k].(onlineStatus := "offline") else hosts[k];
    }

    /** UPDATE hosts SET online_status = 'offline', as DeepScan issues it before probing. */
    method MarkAllOffline()
      modifies this
      ensures hosts == AllOffline(old(hosts))
      ensures externalNetworks == old(externalNetworks)
    {
      hosts := map k | k in hosts :: hosts[k].(onlineStatus := "offline");
    }

    /**
     * SaveHostsToDB. `openError` is the error opening the store fails with, if
     * it fails; `refused` maps the position of each upsert that fails to its
     * error. An empty batch returns before the store is opened; otherwise the
     * batch's interfaces are marked offline and the records upserted in order
     * up to the first refused one, whose error is returned.
     */
    method SaveHostsToDB(hs: seq<HostRecord>, now: Time, openError: Option<string>, refused: map<nat, string>)
      returns (err: Option<string>)
      modifies this
      ensures |hs| == 0 ==> err.None? && hosts == old(hosts)
      ensures |hs| > 0 && openError.Some? ==> err == openError && hosts == old(hosts)
      ensures |hs| > 0 && openError.None? ==> hosts == SavedTable(old(hosts), hs, now, refused)
      ensures |hs| > 0 && openError.None? ==>
        err == (if FirstRefused(|hs|, refused) < |hs| then Some(refused[FirstRefused(|hs|, refused)]) else None)
      ensures externalNetworks == old(externalNetworks)
    {
      if |hs| == 0 {
        return None;
      }
      if openError.Some? {
        return openError;
      }
      var interfaces := CollectInterfaces(hs);
      MarkInterfacesOffline(interfaces);
      err := UpsertBatch(hs, now, refused);
    }

    /** The offline step of SaveHostsToDB: one UPDATE per interface name, in any order. */
    method MarkInterfacesOffline(names: set<string>)
      modifies this
      ensures hosts == MarkOffline(old(hosts), names)
      ensures externalNetworks == old(externalNetworks)
    {
      var pending := names;
      while pending != {}
        invariant pending <= names
        invariant hosts == MarkOffline(old(hosts), names - pending)
        invariant externalNetworks == old(externalNetworks)
        decreases pending
      {
        var name :| name in pending;
        MarkOfflineStep(old(hosts), names - pending, name);
        MarkInterfaceOffline(name);
        assert names - pending + {name} == names - (pending - {name});
        pending := pending - {name};
      }
    }

    /** The upsert step of SaveHostsToDB: the records in order, stopping at the first refused one. */
    method UpsertBatch(hs: seq<HostRecord>, now: Time, refused: map<nat, string>) returns (err: Option<string>)
      modifies this
      ensures hosts == UpsertAll(old(hosts), hs[..FirstRefused(|hs|, refused)], now)
      ensures err == (if FirstRefused(|hs|, refused) < |hs| then Some(refused[FirstRefused(|hs|, refused)]) else None)
      ensures externalNetworks == old(externalNetworks)
    {
      var stop := FirstRefused(|hs|, refused);
      for i := 0 to |hs|
        invariant i <= stop
        invariant hosts == UpsertAll(old(hosts), hs[..i], now)
        invariant externalNetworks == old(externalNetworks)
      {
        ghost var before := hosts;
        var refusal := if i in refused then Some(refused[i]) else None;
        err := Upsert(hs[i], now, refusal);
        if err.Some? {
          assert i == stop;
          return;
        }
        assert hs[..i + 1][..i] == hs[..i];
        assert hosts == UpsertRow(before, hs[i], now);
      }
      assert hs[..|hs|] == hs;
      err := None;
    }

    /**
     * The store half of updateExternalIPInDB: INSERT OR IGNORE the address, then
     * set its last_seen to the current time.
     */
    method RecordExternalIp(ip: string, now: Time)
      modifies this
      ensures externalNetworks == old(externalNetworks)[ip := now]
      ensures hosts == old(hosts)
    {
      if ip !in externalNetworks {
        externalNetworks := externalNetworks[ip := ZeroTime];
      }
      externalNetworks := externalNetworks[ip := now];
    }
  }

  /** Recording an address twice leaves one row for it, touched by the later time. */
  lemma RecordExternalIpOneRow(t: ExternalTable, ip: string, first: Time, second: Time)
    ensures t[ip := first][ip := second] == t[ip := second]
    ensures (t[ip := first][ip := second]).Keys == t.Keys + {ip}
  {
  }
}
