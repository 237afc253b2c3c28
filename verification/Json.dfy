/** JSON values with the lookups the chat code makes, and substring search. */
module JsonValues {
  import opened Basics

  datatype Json =
    | Null
    | Bool(b: bool)
    | Number(n: Double)
    | String(s: string)
    | Array(items: seq<Json>)
    | Object(fields: map<string, Json>)
  {
    /** `get`: only objects have fields. */
    function Field(name: string): Option<Json> {
      if Object? && name in fields then Some(fields[name]) else None
    }

    function AsString(): Option<string> {
      if String? then Some(s) else None
    }

    function AsNumber(): Option<Double> {
      if Number? then Some(n) else None
    }
  }

  predicate OccursAt(s: string, pattern: string, i: int) {
    0 <= i && i + |pattern| <= |s| && s[i..i + |pattern|] == pattern
  }

  predicate Contains(s: string, pattern: string) {
    exists i | 0 <= i <= |s| :: OccursAt(s, pattern, i)
  }

  lemma OccursAtChars(s: string, pattern: string, i: int)
    requires 0 <= i && i + |pattern| <= |s|
    ensures OccursAt(s, pattern, i) <==> forall k :: 0 <= k < |pattern| ==> s[i + k] == pattern[k]
  {
  }

  lemma OverlapMeetsSeparator(left: string, separator: string, right: string, pattern: string, i: int)
    requires OccursAt(left + separator + right, pattern, i) && pattern != [] && separator != []
    requires |left| < i + |pattern| && i < |left| + |separator|
    ensures exists c :: c in pattern && c in separator
  {
    var whole := left + separator + right;
    OccursAtChars(whole, pattern, i);
    var k := if i >= |left| then 0 else |left| - i;
    assert whole[i + k] == pattern[k] && whole[i + k] == separator[i + k - |left|];
    assert pattern[k] in pattern && pattern[k] in separator;
  }

  /** Around a separator that shares no character with the pattern, a match lies wholly on one side. */
  lemma ContainsJoined(left: string, separator: string, right: string, pattern: string)
    requires pattern != [] && separator != []
    requires forall c :: c in pattern ==> c !in separator
    ensures Contains(left + separator + right, pattern) <==> Contains(left, pattern) || Contains(right, pattern)
  {
    var whole := left + separator + right;
    var skip := |left| + |separator|;
    if Contains(whole, pattern) {
      var i :| 0 <= i <= |whole| && OccursAt(whole, pattern, i);
      OccursAtChars(whole, pattern, i);
      if i + |pattern| <= |left| {
        OccursAtChars(left, pattern, i);
        assert OccursAt(left, pattern, i);
      } else if i >= skip {
        OccursAtChars(right, pattern, i - skip);
        assert OccursAt(right, pattern, i - skip);
      } else {
        OverlapMeetsSeparator(left, separator, right, pattern, i);
        assert false;
      }
    }
    if Contains(left, pattern) {
      var i :| 0 <= i <= |left| && OccursAt(left, pattern, i);
      OccursAtChars(left, pattern, i);
      OccursAtChars(whole, pattern, i);
      assert OccursAt(whole, pattern, i);
    }
    if Contains(right, pattern) {
      var i :| 0 <= i <= |right| && OccursAt(right, pattern, i);
      OccursAtChars(right, pattern, i);
      OccursAtChars(whole, pattern, i + skip);
      assert OccursAt(whole, pattern, i + skip);
    }
  }
}
