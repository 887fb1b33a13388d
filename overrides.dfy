/**
 * The `--value key=value` override arguments of the `render` subcommand.
 * Both argument loaders turn the list of values into a map with the same
 * loop: every entry is split with `splitn(2, "=")` and the two parts are
 * inserted as key and value, so that a later entry for a key overwrites an
 * earlier one. An entry without `=` yields a single part, and indexing the
 * second part panics; here that is a precondition.
 */
module Overrides {

  /** The index of the first '=' in `s`, or `|s|` when there is none. */
  function FirstEq(s: string): (i: nat)
    ensures i <= |s|
    ensures i < |s| ==> s[i] == '='
    ensures forall j :: 0 <= j < i ==> s[j] != '='
  {
    if s == [] then 0
    else if s[0] == '=' then 0
    else 1 + FirstEq(s[1..])
  }

  /**
   * `s.splitn(2, "=")`: the whole string when it has no '=', otherwise the
   * part before the first '=' and everything after it.
   */
  function SplitN2(s: string): (parts: seq<string>)
    ensures 1 <= |parts| <= 2
    ensures |parts| == 2 <==> '=' in s
    ensures |parts| == 1 ==> parts[0] == s
    ensures |parts| == 2 ==> '=' !in parts[0] && parts[0] + "=" + parts[1] == s
  {
    var i := FirstEq(s);
    if i == |s| then [s]
    else
      assert s[..i] + "=" + s[i + 1..] == s by {
        assert s == s[..i] + [s[i]] + s[i + 1..];
      }
      [s[..i], s[i + 1..]]
  }

  /** Every entry splits into two parts, so `spl[1]` exists for each. */
  predicate Splittable(values: seq<string>) {
    forall i :: 0 <= i < |values| ==> '=' in values[i]
  }

  function Key(entry: string): string
    requires '=' in entry
  {
    SplitN2(entry)[0]
  }

  function Value(entry: string): string
    requires '=' in entry
  {
    SplitN2(entry)[1]
  }

  /** The map after inserting the entries of `values` one after another. */
  function Insert(values: seq<string>): map<string, string>
    requires Splittable(values)
  {
    if values == [] then map[]
    else
      var entry := values[|values| - 1];
      Insert(values[..|values| - 1])[Key(entry) := Value(entry)]
  }

  /** The keys of all entries of `values`. */
  function Keys(values: seq<string>): set<string>
    requires Splittable(values)
  {
    set i | 0 <= i < |values| :: Key(values[i])
  }

  /**
   * The override loop: starting from an empty map, insert the split of every
   * entry in turn.
   */
  method Collect(values: seq<string>) returns (overrides: map<string, string>)
    requires Splittable(values)
    ensures overrides == Insert(values)
  {
    overrides := map[];
    var i := 0;
    while i < |values|
      invariant 0 <= i <= |values|
      invariant overrides == Insert(values[..i])
    {
      var spl := SplitN2(values[i]);
      assert values[..i + 1][..i] == values[..i];
      overrides := overrides[spl[0] := spl[1]];
      i := i + 1;
    }
    assert values[..i] == values;
  }

  /**
   * The split is the only way to write `s` as a key without '=', then '=',
   * then a value; the value may itself contain '='.
   */
  lemma SplitUnique(s: string, key: string, value: string)
    requires '=' !in key && key + "=" + value == s
    ensures SplitN2(s) == [key, value]
  {
    var i := FirstEq(s);
    assert s[|key|] == '=';
    assert forall j :: 0 <= j < |key| ==> s[j] == key[j];
    assert i == |key|;
    assert s[..i] == key;
    assert s[i + 1..] == value;
  }

  /** Only the first '=' separates: `name=a=b` overrides `name` with `a=b`. */
  lemma ValueKeepsLaterEq()
    ensures SplitN2("name=a=b") == ["name", "a=b"]
  {
    SplitUnique("name=a=b", "name", "a=b");
  }

  /** Splitting the joined pair gives the pair back. */
  lemma JoinThenSplit(key: string, value: string)
    requires '=' !in key
    ensures var s := key + "=" + value; '=' in s && Key(s) == key && Value(s) == value
  {
    var s := key + "=" + value;
    assert s[|key|] == '=';
    SplitUnique(s, key, value);
  }

  /** Appending an entry adds its key to the keys. */
  lemma KeysSnoc(init: seq<string>, entry: string)
    requires Splittable(init) && '=' in entry
    ensures Splittable(init + [entry])
    ensures Keys(init + [entry]) == Keys(init) + {Key(entry)}
  {
    var values := init + [entry];
    assert forall i :: 0 <= i < |init| ==> values[i] == init[i];
    assert values[|init|] == entry;
    assert Keys(values) <= Keys(init) + {Key(entry)} by {
      forall k | k in Keys(values) ensures k in Keys(init) + {Key(entry)} {
        var i :| 0 <= i < |values| && Key(values[i]) == k;
      }
    }
    assert Keys(init) + {Key(entry)} <= Keys(values) by {
      forall k | k in Keys(init) ensures k in Keys(values) {
        var i :| 0 <= i < |init| && Key(init[i]) == k;
        assert Key(values[i]) == k;
      }
      assert Key(values[|init|]) == Key(entry);
    }
  }

  /** The map's keys are exactly the keys of the entries. */
  lemma {:induction false} InsertKeys(values: seq<string>)
    requires Splittable(values)
    ensures Insert(values).Keys == Keys(values)
  {
    if values != [] {
      var init, entry := values[..|values| - 1], values[|values| - 1];
      assert values == init + [entry];
      InsertKeys(init);
      KeysSnoc(init, entry);
    }
  }

  /**
   * The value stored for a key is the value of the last entry with that key,
   * whatever came before it.
   */
  lemma {:induction false} InsertLastWins(values: seq<string>, i: nat)
    requires Splittable(values)
    requires i < |values|
    requires forall j :: i < j < |values| ==> Key(values[j]) != Key(values[i])
    ensures Key(values[i]) in Insert(values)
    ensures Insert(values)[Key(values[i])] == Value(values[i])
  {
    var init := values[..|values| - 1];
    if i < |values| - 1 {
      assert init[i] == values[i];
      forall j | i < j < |init| ensures Key(init[j]) != Key(init[i]) {
        assert init[j] == values[j];
      }
      InsertLastWins(init, i);
    }
  }

  /** An entry `key=value` appended after any entries leaves `value` stored for `key`. */
  lemma OverrideOwnEntry(key: string, value: string, before: seq<string>)
    requires '=' !in key && Splittable(before)
    ensures Splittable(before + [key + "=" + value])
    ensures key in Insert(before + [key + "=" + value])
    ensures Insert(before + [key + "=" + value])[key] == value
  {
    var values := before + [key + "=" + value];
    JoinThenSplit(key, value);
    assert values[..|values| - 1] == before;
  }
}
