/** The answer sanitiser of ai/app/utils.py. */
module Utils {

  /** The four code-point ranges the sanitiser strips: supplementary planes, Dingbats,
      Miscellaneous Symbols and Miscellaneous Technical. */
  predicate IsEmoji(c: char) {
    var n := c as int;
    (0x10000 <= n <= 0x10FFFF) ||
    (0x2700 <= n <= 0x27BF) ||
    (0x2600 <= n <= 0x26FF) ||
    (0x2300 <= n <= 0x23FF)
  }

  predicate EmojiFree(s: string) {
    forall i :: 0 <= i < |s| ==> !IsEmoji(s[i])
  }

  /** `remove_emojis`: deletes every character in the four ranges. Substituting '' for
      each run of such characters is the same as deleting them one by one. */
  function RemoveEmojis(s: string): (r: string)
    ensures s == [] ==> r == []
    ensures |r| <= |s|
    ensures EmojiFree(r)
    decreases |s|
  {
    if s == [] then ""
    else (if IsEmoji(s[0]) then "" else [s[0]]) + RemoveEmojis(s[1..])
  }

  /** Sanitising distributes over concatenation: characters keep their relative order. */
  lemma {:induction false} RemoveEmojisAppend(a: string, b: string)
    ensures RemoveEmojis(a + b) == RemoveEmojis(a) + RemoveEmojis(b)
    decreases |a|
  {
    if a != [] {
      assert (a + b)[0] == a[0];
      assert (a + b)[1..] == a[1..] + b;
      RemoveEmojisAppend(a[1..], b);
    } else {
      assert a + b == b;
    }
  }

  /** A string is left unchanged exactly when it holds none of the stripped characters. */
  lemma {:induction false} RemoveEmojisIdentity(s: string)
    ensures RemoveEmojis(s) == s <==> EmojiFree(s)
    decreases |s|
  {
    if s != [] {
      RemoveEmojisIdentity(s[1..]);
      if IsEmoji(s[0]) {
        assert |RemoveEmojis(s)| < |s|;
      } else {
        assert RemoveEmojis(s) == [s[0]] + RemoveEmojis(s[1..]);
        if EmojiFree(s) {
          assert EmojiFree(s[1..]) by {
            forall i | 0 <= i < |s[1..]| ensures !IsEmoji(s[1..][i]) {
              assert s[1..][i] == s[i + 1];
            }
          }
          assert [s[0]] + s[1..] == s;
        }
        if RemoveEmojis(s) == s {
          assert RemoveEmojis(s[1..]) == s[1..];
        }
      }
    }
  }

  /** Sanitising twice is the same as sanitising once. */
  lemma RemoveEmojisIdempotent(s: string)
    ensures RemoveEmojis(RemoveEmojis(s)) == RemoveEmojis(s)
  {
    RemoveEmojisIdentity(RemoveEmojis(s));
  }

  /** Exactly the stripped characters disappear: every other character keeps its
      number of occurrences, and none of the stripped ones is left. */
  lemma {:induction false} RemoveEmojisMultiset(s: string, c: char)
    ensures multiset(RemoveEmojis(s))[c] == if IsEmoji(c) then 0 else multiset(s)[c]
    decreases |s|
  {
    if s != [] {
      RemoveEmojisMultiset(s[1..], c);
      assert s == [s[0]] + s[1..];
      assert multiset(s) == multiset([s[0]]) + multiset(s[1..]);
      var head: string := if IsEmoji(s[0]) then "" else [s[0]];
      assert multiset(RemoveEmojis(s)) == multiset(head) + multiset(RemoveEmojis(s[1..]));
    }
  }
}
