/**
 * The status code table shared by the client: codes 0 to 7 and their names,
 * and the inverse table built from it entry by entry.
 */
module StatusEnum {
  /** The eight status names, in code order. */
  const StatusNames: seq<string> :=
    ["New", "Assigned", "Open", "InProgress", "Resolved", "Closed", "OnHold", "Reopened"]

  /** `statusEnum`: code to name. (The object's keys are strings; `parseInt` turns them back into the codes used here.) */
  const StatusEnum: map<int, string> :=
    map[0 := "New", 1 := "Assigned", 2 := "Open", 3 := "InProgress",
        4 := "Resolved", 5 := "Closed", 6 := "OnHold", 7 := "Reopened"]

  /** No two codes share a name. */
  ghost predicate Injective(m: map<int, string>) {
    forall j, k :: j in m && k in m && j != k ==> m[j] != m[k]
  }

  /** `reverseStatusEnum`: every entry [code, name] of the table turned into [name, code]. */
  function ReverseStatusEnum(): (r: map<string, int>)
    ensures r.Keys == StatusEnum.Values
    ensures forall k :: k in StatusEnum ==> r[StatusEnum[k]] == k
  {
    StatusEnumInjective();
    map k | k in StatusEnum :: StatusEnum[k] := k
  }

  /** The table is defined on exactly the codes 0 to 7, each with its name in code order. */
  lemma StatusEnumTable()
    ensures forall k :: k in StatusEnum <==> 0 <= k < 8
    ensures forall k :: 0 <= k < 8 ==> StatusEnum[k] == StatusNames[k]
  {
  }

  /** The eight names are pairwise distinct. */
  lemma StatusEnumInjective()
    ensures Injective(StatusEnum)
  {
  }

  /** Code to name to code gives back the code. */
  lemma ReverseAfterForward(k: int)
    requires 0 <= k < 8
    ensures StatusEnum[k] in ReverseStatusEnum() && ReverseStatusEnum()[StatusEnum[k]] == k
  {
  }

  /** Name to code to name gives back the name, for exactly the eight names. */
  lemma ForwardAfterReverse(s: string)
    ensures s in ReverseStatusEnum() <==> s in StatusNames
    ensures s in ReverseStatusEnum() ==> ReverseStatusEnum()[s] in StatusEnum && StatusEnum[ReverseStatusEnum()[s]] == s
  {
  }
}
