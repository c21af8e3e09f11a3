/** The sizes of maps. */
module Maps {

  lemma SizeAfterPut<K, V>(m: map<K, V>, key: K, value: V)
    ensures |m[key := value]| == if key in m then |m| else |m| + 1
  {
    var n := m[key := value];
    assert n.Keys == m.Keys + {key};
    assert |n| == |n.Keys| && |m| == |m.Keys|;
  }

  lemma SmallerByOne<K, V>(was: map<K, V>, m: map<K, V>)
    requires exists key :: key in was && m == was - {key}
    ensures |m| == |was| - 1
  {
    var key :| key in was && m == was - {key};
    assert m.Keys == was.Keys - {key};
    assert |m| == |m.Keys| && |was| == |was.Keys|;
  }
}
