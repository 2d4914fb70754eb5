/**
 * Datastore identifiers and their names (cmgd/cmgd_db.h, cmgd/cmgd_db.c).
 *
 * A `cmgd_database_id_t` is an unsigned enumeration; it is modelled as a
 * `nat`, so that ids beyond the table (which `cmgd_db_id2name` clamps) can be
 * expressed. C strings are `string` values without embedded NUL characters.
 */
module DbNames {

  const DbNone: nat := 0
  const DbRunning: nat := 1
  const DbCandidate: nat := 2
  const DbOperational: nat := 3
  const DbMaxId: nat := 4

  /** CMGD_DB_NAME_MAX_LEN, the bound `cmgd_db_name2id` passes to strncmp. */
  const DbNameMaxLen: nat := 32

  /** The `cmgd_db_names` table, indexed by id, with the MAX_ID entry last. */
  const Names: seq<string> := ["none", "running", "candidate", "operational", "Unknown/Invalid"]

  /** The first `n` characters of a C string (all of it when it is shorter). */
  function Truncate(s: string, n: nat): (r: string)
    ensures |r| <= n && r <= s
    ensures |s| <= n ==> r == s
  {
    if |s| <= n then s else s[..n]
  }

  /**
   * `strncmp(a, b, n) == 0`: the strings agree on their first `n` characters,
   * where a string that ends earlier differs from one that goes on (its
   * terminating NUL is compared too).
   */
  predicate StrnEq(a: string, b: string, n: nat)
  {
    Truncate(a, n) == Truncate(b, n)
  }

  /** `cmgd_db_id2name`: an id above MAX_ID is first clamped to MAX_ID. */
  function Id2Name(id: nat): (name: string)
    ensures name in Names
  {
    Names[if id > DbMaxId then DbMaxId else id]
  }

  /**
   * The scan of `cmgd_db_name2id` from `id` on (FOREACH_CMGD_DB_ID runs the
   * ids NONE .. MAX_ID-1). It returns the first id whose name agrees with
   * `name` on DbNameMaxLen characters, and NONE when no remaining id does.
   */
  function Name2IdFrom(name: string, id: nat): (r: nat)
    requires id <= DbMaxId
    ensures r < DbMaxId
    ensures (exists j :: id <= j < DbMaxId && StrnEq(Names[j], name, DbNameMaxLen)) ==>
              id <= r && StrnEq(Names[r], name, DbNameMaxLen) &&
              forall j :: id <= j < r ==> !StrnEq(Names[j], name, DbNameMaxLen)
    ensures (forall j :: id <= j < DbMaxId ==> !StrnEq(Names[j], name, DbNameMaxLen)) ==> r == DbNone
    decreases DbMaxId - id
  {
    if id == DbMaxId then DbNone
    else if StrnEq(Names[id], name, DbNameMaxLen) then id
    else Name2IdFrom(name, id + 1)
  }

  /** `cmgd_db_name2id`. */
  function Name2Id(name: string): (r: nat)
    ensures r < DbMaxId
  {
    Name2IdFrom(name, DbNone)
  }

  /** `cmgd_get_db_id_by_name`: the comparisons run over sizeof(literal), the NUL included. */
  function GetDbIdByName(dbName: string): (r: nat)
    ensures r in {DbNone, DbCandidate, DbRunning, DbOperational}
  {
    if StrnEq(dbName, "candidate", |"candidate"| + 1) then DbCandidate
    else if StrnEq(dbName, "running", |"running"| + 1) then DbRunning
    else if StrnEq(dbName, "operational", |"operational"| + 1) then DbOperational
    else DbNone
  }

  /** An id above MAX_ID gets the name of MAX_ID, "Unknown/Invalid"; an id in range its own entry. */
  lemma Id2NameClamps(id: nat)
    ensures id > DbMaxId ==> Id2Name(id) == Id2Name(DbMaxId) == "Unknown/Invalid"
    ensures id <= DbMaxId ==> Id2Name(id) == Names[id]
  {
  }

  /** The names of the ids NONE .. MAX_ID are pairwise different. */
  lemma NamesDistinct()
    ensures forall i, j :: 0 <= i < j < |Names| ==> !StrnEq(Names[i], Names[j], DbNameMaxLen)
  {
    forall i, j | 0 <= i < j < |Names|
      ensures !StrnEq(Names[i], Names[j], DbNameMaxLen)
    {
      assert |Names[i]| < DbNameMaxLen && |Names[j]| < DbNameMaxLen;
      assert Names[i] != Names[j];
    }
  }

  /** `name2id(id2name(id)) == id` for every id the scan visits. */
  lemma {:induction false} NameRoundTrip(id: nat)
    requires id < DbMaxId
    ensures Name2Id(Id2Name(id)) == id
  {
    NamesDistinct();
    assert StrnEq(Names[id], Id2Name(id), DbNameMaxLen);
  }

  /** The name of MAX_ID (and so of every id above it) maps back to NONE. */
  lemma {:induction false} UnknownNameMapsToNone(id: nat)
    requires id >= DbMaxId
    ensures Name2Id(Id2Name(id)) == DbNone
  {
    NamesDistinct();
    assert Id2Name(id) == Names[DbMaxId];
    forall j | 0 <= j < DbMaxId
      ensures !StrnEq(Names[j], Id2Name(id), DbNameMaxLen)
    {
    }
  }

  /** `cmgd_get_db_id_by_name` recognises exactly the three literal names. */
  lemma GetDbIdByNameExact(dbName: string)
    ensures GetDbIdByName(dbName) == DbCandidate <==> dbName == "candidate"
    ensures GetDbIdByName(dbName) == DbRunning <==> dbName == "running"
    ensures GetDbIdByName(dbName) == DbOperational <==> dbName == "operational"
    ensures GetDbIdByName(dbName) == DbNone <==> dbName !in {"candidate", "running", "operational"}
  {
    StrnEqExact(dbName, "candidate");
    StrnEqExact(dbName, "running");
    StrnEqExact(dbName, "operational");
  }

  /** Comparing over one character more than the literal's length is exact equality. */
  lemma StrnEqExact(s: string, lit: string)
    ensures StrnEq(s, lit, |lit| + 1) <==> s == lit
  {
    if StrnEq(s, lit, |lit| + 1) {
      assert Truncate(lit, |lit| + 1) == lit;
    }
  }
}
