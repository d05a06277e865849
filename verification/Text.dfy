/** The few string operations the specs depend on. */
module Text {

  /** strings.HasPrefix */
  predicate HasPrefix(s: string, p: string) {
    p <= s
  }

  /** strings.ToLower, on ASCII letters. */
  function ToLower(s: string): (r: string)
    ensures |r| == |s|
  {
    if s == [] then [] else [LowerChar(s[0])] + ToLower(s[1..])
  }

  function LowerChar(c: char): char {
    if 'A' <= c <= 'Z' then (c as int + 32) as char else c
  }

  lemma {:induction false} ToLowerIdempotent(s: string)
    ensures ToLower(ToLower(s)) == ToLower(s)
  {
    if s != [] {
      ToLowerIdempotent(s[1..]);
      assert ToLower(s) == [LowerChar(s[0])] + ToLower(s[1..]);
    }
  }

  /** The part of kv before its first separator; all of kv when there is none. */
  function CutKey(kv: string, sep: char): (k: string)
    ensures sep !in k
    ensures sep !in kv ==> k == kv
  {
    if kv == [] || kv[0] == sep then [] else [kv[0]] + CutKey(kv[1..], sep)
  }

  /** The part of kv after its first separator; "" when there is none. */
  function CutValue(kv: string, sep: char): string {
    if kv == [] then []
    else if kv[0] == sep then kv[1..]
    else CutValue(kv[1..], sep)
  }

  /** The parts around the first separator rebuild the whole; without one the key is everything. */
  lemma {:induction false} CutMeaning(kv: string, sep: char)
    ensures sep in kv ==> kv == CutKey(kv, sep) + [sep] + CutValue(kv, sep)
    ensures sep !in kv ==> CutKey(kv, sep) == kv && CutValue(kv, sep) == ""
  {
    if kv != [] && kv[0] != sep {
      CutMeaning(kv[1..], sep);
      assert kv == [kv[0]] + kv[1..];
    }
  }

  lemma {:induction false} CutOfJoin(k: string, v: string, sep: char)
    requires sep !in k
    ensures CutKey(k + [sep] + v, sep) == k
    ensures CutValue(k + [sep] + v, sep) == v
  {
    var kv := k + [sep] + v;
    if k == [] {
      assert kv[1..] == v;
    } else {
      assert kv[0] == k[0] && kv[1..] == k[1..] + [sep] + v;
      CutOfJoin(k[1..], v, sep);
      assert k == [k[0]] + k[1..];
    }
  }

  /** Joining is injective as long as the left parts hold no separator. */
  lemma JoinInjective(k: string, v: string, k': string, v': string, sep: char)
    requires sep !in k && sep !in k' && k + [sep] + v == k' + [sep] + v'
    ensures k == k' && v == v'
  {
    CutOfJoin(k, v, sep);
    CutOfJoin(k', v', sep);
  }
}
