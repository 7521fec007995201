/** The composite string keys `adapterName:instanceName`. */
module Keys {
  const COLON: char := ':'

  function KeyFor(adapterName: string, instanceName: string): string {
    adapterName + [COLON] + instanceName
  }

  /** `key.indexOf(':')`, or -1. */
  function IndexOfColon(key: string): (i: int)
    ensures -1 <= i < |key|
    ensures i >= 0 ==> key[i] == COLON && COLON !in key[..i]
    ensures i == -1 ==> COLON !in key
  {
    if key == "" then -1
    else if key[0] == COLON then 0
    else
      var i := IndexOfColon(key[1..]);
      assert key == [key[0]] + key[1..];
      assert i >= 0 ==> key[..i + 1] == [key[0]] + key[1..][..i];
      if i == -1 then -1 else i + 1
  }

  function AdapterPart(key: string): string
    requires COLON in key
  {
    key[..IndexOfColon(key)]
  }

  function InstancePart(key: string): string
    requires COLON in key
  {
    key[IndexOfColon(key) + 1..]
  }

  /** Splitting undoes joining exactly when the adapter name has no colon. */
  lemma SplitUndoesKeyFor(adapterName: string, instanceName: string)
    ensures COLON in KeyFor(adapterName, instanceName)
    ensures COLON !in adapterName <==>
            AdapterPart(KeyFor(adapterName, instanceName)) == adapterName
            && InstancePart(KeyFor(adapterName, instanceName)) == instanceName
  {
    var key := KeyFor(adapterName, instanceName);
    assert key[|adapterName|] == COLON;
    var i := IndexOfColon(key);
    if COLON !in adapterName {
      assert forall j | 0 <= j < |adapterName| :: key[j] == adapterName[j] && adapterName[j] in adapterName;
      assert forall j | 0 <= j < i :: key[j] in key[..i];
      assert i == |adapterName|;
      assert key[..|adapterName|] == adapterName;
      assert key[|adapterName| + 1..] == instanceName;
    }
  }

  lemma KeyForIsInjective(a: string, i: string, b: string, j: string)
    requires COLON !in a && COLON !in b
    ensures KeyFor(a, i) == KeyFor(b, j) <==> a == b && i == j
  {
    SplitUndoesKeyFor(a, i);
    SplitUndoesKeyFor(b, j);
  }

  /** Without the restriction two different pairs share a key. */
  lemma ColonsInAdapterNamesCollide()
    ensures KeyFor("a:b", "c") == KeyFor("a", "b:c") && "a:b" != "a"
  {
    assert KeyFor("a:b", "c") == "a:b:c" == KeyFor("a", "b:c");
    assert |"a:b"| == 3 && |"a"| == 1;
  }
}
