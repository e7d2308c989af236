/**
  Per-app sync state: six rows per app in one shared `sync_state` table, keyed
  `<appId>:<suffix>`. The key is injective whatever the app id holds, colons
  included, because no suffix holds one, so no app's setter is ever seen by
  another app's getter.
*/
module SyncState {
  import opened Wrappers

  datatype Suffix = Watermarks | PeerWatermarks | RepairFloors | InboundFloors | ByteWatermarks | PeerByteWatermarks

  type Table = map<string, string>
  type View = map<Suffix, string>

  function Text(s: Suffix): string {
    match s
    case Watermarks => "watermarks"
    case PeerWatermarks => "peer_watermarks"
    case RepairFloors => "repair_floors"
    case InboundFloors => "inbound_floors"
    case ByteWatermarks => "byte_watermarks"
    case PeerByteWatermarks => "peer_byte_watermarks"
  }

  function Key(appId: string, s: Suffix): string { appId + ":" + Text(s) }

  lemma NoColon(s: Suffix)
    ensures ':' !in Text(s)
  {
  }

  lemma TextInjective(s: Suffix, t: Suffix)
    requires Text(s) == Text(t)
    ensures s == t
  {
  }

  /** The end of a key is its suffix's text, and the character before it a colon. */
  lemma KeyEnd(a: string, s: Suffix, i: nat)
    requires |a| < i < |Key(a, s)|
    ensures Key(a, s)[i] != ':'
  {
    NoColon(s);
    assert Key(a, s)[i] == Text(s)[i - |a| - 1];
  }

  lemma KeyInjective(a: string, s: Suffix, b: string, t: Suffix)
    requires Key(a, s) == Key(b, t)
    ensures a == b && s == t
  {
    assert Key(a, s)[|a|] == ':' && Key(b, t)[|b|] == ':';
    if |a| < |b| { KeyEnd(a, s, |b|); }
    if |b| < |a| { KeyEnd(b, t, |a|); }
    assert a == Key(a, s)[..|a|] && b == Key(b, t)[..|b|];
    assert Text(s) == Key(a, s)[|a| + 1..] && Text(t) == Key(b, t)[|b| + 1..];
    TextInjective(s, t);
  }

  /** What one app's getters see of the table. */
  ghost function ViewOf(table: Table, appId: string): View {
    map s: Suffix | Key(appId, s) in table :: table[Key(appId, s)]
  }

  lemma WriteSeenByOwnerOnly(table: Table, appId: string, s: Suffix, v: string, other: string)
    ensures var t1 := table[Key(appId, s) := v];
      ViewOf(t1, other) == if other == appId then ViewOf(table, other)[s := v] else ViewOf(table, other)
  {
    var t1 := table[Key(appId, s) := v];
    forall t: Suffix ensures Key(other, t) == Key(appId, s) ==> other == appId && t == s {
      if Key(other, t) == Key(appId, s) { KeyInjective(other, t, appId, s); }
    }
  }

  class SyncStateTable {
    var rows: Table
    constructor (rows: Table)
      ensures this.rows == rows
    {
      this.rows := rows;
    }
  }

  class PerAppSyncStateStore {
    const table: SyncStateTable
    const appId: string

    constructor (table: SyncStateTable, appId: string)
      ensures this.table == table && this.appId == appId
    {
      this.table, this.appId := table, appId;
    }

    method Get(s: Suffix) returns (value: Option<string>)
      ensures value == if s in ViewOf(table.rows, appId) then Some(ViewOf(table.rows, appId)[s]) else None
    {
      var key := Key(appId, s);
      return if key in table.rows then Some(table.rows[key]) else None;
    }

    /** An upsert of one row: this app sees it, and no other app sees anything. */
    method Set(s: Suffix, value: string)
      modifies table
      ensures ViewOf(table.rows, appId) == ViewOf(old(table.rows), appId)[s := value]
      ensures forall other :: other != appId ==> ViewOf(table.rows, other) == ViewOf(old(table.rows), other)
    {
      table.rows := table.rows[Key(appId, s) := value];
      forall other ensures ViewOf(table.rows, other) ==
        if other == appId then ViewOf(old(table.rows), other)[s := value] else ViewOf(old(table.rows), other)
      {
        WriteSeenByOwnerOnly(old(table.rows), appId, s, value, other);
      }
    }
  }
}
