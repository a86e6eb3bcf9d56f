/**
 * Identity sanitising and room-key derivation, as done at the top of
 * `ChatConsumer.connect`: each username is passed through a regex
 * substitution that replaces every character outside `[a-zA-Z0-9_.-]`
 * by `_`, and the two results are joined as `chat_<user1>_<user2>`,
 * connecting user first (deliberately not sorted).
 */
module Naming {

  /** The character class `[a-zA-Z0-9_.-]` kept by the substitution. */
  predicate IsAllowed(c: char) {
    ('a' <= c <= 'z') || ('A' <= c <= 'Z') || ('0' <= c <= '9') || c == '_' || c == '.' || c == '-'
  }

  /** Every character of `s` is in the allowed class. */
  predicate AllAllowed(s: string) {
    forall i :: 0 <= i < |s| ==> IsAllowed(s[i])
  }

  /** `re.sub(r'[^a-zA-Z0-9_.-]', '_', s)`: one character at a time, left to right. */
  function Sanitize(s: string): (r: string)
    ensures |r| == |s|
    ensures forall i :: 0 <= i < |s| && IsAllowed(s[i]) ==> r[i] == s[i]
    ensures forall i :: 0 <= i < |s| && !IsAllowed(s[i]) ==> r[i] == '_'
    ensures AllAllowed(r)
  {
    if s == [] then []
    else [if IsAllowed(s[0]) then s[0] else '_'] + Sanitize(s[1..])
  }

  /** A string is left as it is exactly when all its characters are allowed. */
  lemma SanitizeFixesExactlyAllowed(s: string)
    ensures Sanitize(s) == s <==> AllAllowed(s)
  {
    if AllAllowed(s) {
      assert forall i :: 0 <= i < |s| ==> Sanitize(s)[i] == s[i];
    }
  }

  /** Sanitising twice is the same as sanitising once. */
  lemma SanitizeIdempotent(s: string)
    ensures Sanitize(Sanitize(s)) == Sanitize(s)
  {
    SanitizeFixesExactlyAllowed(Sanitize(s));
  }

  /** Sanitising never turns a non-empty name into an empty one, nor the converse. */
  lemma SanitizeEmptyIff(s: string)
    ensures Sanitize(s) == [] <==> s == []
  {
  }

  /** A character that sanitises to `_`: a disallowed one, or `_` itself. */
  predicate BecomesUnderscore(c: char) {
    !IsAllowed(c) || c == '_'
  }

  /**
   * Two names of equal length share a token exactly when, position by position,
   * they agree or both characters turn into `_`: punctuation differences never
   * split one name into two tokens.
   */
  lemma SanitizeEqIff(s: string, t: string)
    requires |s| == |t|
    ensures Sanitize(s) == Sanitize(t) <==>
            forall i :: 0 <= i < |s| ==> s[i] == t[i] || (BecomesUnderscore(s[i]) && BecomesUnderscore(t[i]))
  {
    if Sanitize(s) == Sanitize(t) {
      forall i | 0 <= i < |s|
        ensures s[i] == t[i] || (BecomesUnderscore(s[i]) && BecomesUnderscore(t[i]))
      {
        assert Sanitize(s)[i] == Sanitize(t)[i];
      }
    }
    if forall i :: 0 <= i < |s| ==> s[i] == t[i] || (BecomesUnderscore(s[i]) && BecomesUnderscore(t[i])) {
      forall i | 0 <= i < |s|
        ensures Sanitize(s)[i] == Sanitize(t)[i]
      {
      }
    }
  }

  /** One example: `a b`, `a@b` and `a_b` all give the token `a_b`. */
  lemma SanitizeMergesPunctuation()
    ensures Sanitize("a b") == Sanitize("a@b") == Sanitize("a_b") == "a_b"
  {
    SanitizeEqIff("a b", "a_b");
    SanitizeEqIff("a@b", "a_b");
    SanitizeFixesExactlyAllowed("a_b");
  }

  const Prefix: string := "chat_"

  /** Joining strings of allowed characters gives a string of allowed characters. */
  lemma AllAllowedConcat(a: string, b: string)
    requires AllAllowed(a) && AllAllowed(b)
    ensures AllAllowed(a + b)
  {
    forall i | 0 <= i < |a + b|
      ensures IsAllowed((a + b)[i])
    {
      if i < |a| {
        assert (a + b)[i] == a[i];
      } else {
        assert (a + b)[i] == b[i - |a|];
      }
    }
  }

  /**
   * The room group name `chat_<sanitised user1>_<sanitised user2>`, built from the
   * raw names in connecting-user-first order.
   */
  function RoomGroupName(user1: string, user2: string): (key: string)
    ensures |key| == |Prefix| + |user1| + 1 + |user2|
    ensures key[..|Prefix|] == Prefix
    ensures key[|Prefix|..|Prefix| + |user1|] == Sanitize(user1)
    ensures key[|Prefix| + |user1|] == '_'
    ensures key[|Prefix| + |user1| + 1..] == Sanitize(user2)
    ensures AllAllowed(key)
  {
    var safe1 := Sanitize(user1);
    var safe2 := Sanitize(user2);
    assert AllAllowed(Prefix) && AllAllowed("_") by {
      assert forall i :: 0 <= i < |Prefix| ==> IsAllowed(Prefix[i]);
      assert IsAllowed('_');
    }
    AllAllowedConcat(Prefix, safe1);
    AllAllowedConcat(Prefix + safe1, "_");
    AllAllowedConcat(Prefix + safe1 + "_", safe2);
    Prefix + safe1 + "_" + safe2
  }

  /**
   * Once the length of the first name is fixed, the key determines both sanitised
   * names; so two pairs with first names of equal length share a room exactly when
   * their sanitised names agree.
   */
  lemma RoomKeyDeterminesPairOfEqualSplit(u1: string, u2: string, v1: string, v2: string)
    requires |u1| == |v1|
    ensures RoomGroupName(u1, u2) == RoomGroupName(v1, v2)
            <==> Sanitize(u1) == Sanitize(v1) && Sanitize(u2) == Sanitize(v2)
  {
    var ku, kv := RoomGroupName(u1, u2), RoomGroupName(v1, v2);
    var n := |Prefix| + |u1|;
    if ku == kv {
      assert Sanitize(u1) == ku[|Prefix|..n] == kv[|Prefix|..n] == Sanitize(v1);
      assert Sanitize(u2) == ku[n + 1..] == kv[n + 1..] == Sanitize(v2);
    }
  }

  /**
   * For names of equal length the key is symmetric only when both sanitise to the
   * same token: two users of equal name length whose names sanitise to different
   * tokens never share a room from opposite ends.
   */
  lemma RoomKeySwapEqualLength(u1: string, u2: string)
    requires |u1| == |u2|
    ensures RoomGroupName(u1, u2) == RoomGroupName(u2, u1) <==> Sanitize(u1) == Sanitize(u2)
  {
    RoomKeyDeterminesPairOfEqualSplit(u1, u2, u2, u1);
  }

  /** For names made only of allowed characters, the key is the plain concatenation. */
  lemma RoomKeyOfCleanNames(u1: string, u2: string)
    requires AllAllowed(u1) && AllAllowed(u2)
    ensures RoomGroupName(u1, u2) == Prefix + u1 + "_" + u2
  {
    SanitizeFixesExactlyAllowed(u1);
    SanitizeFixesExactlyAllowed(u2);
  }

  /** The key is not injective: `_` is both an allowed character and the separator. */
  lemma RoomKeyNotInjective()
    ensures ("a_b", "c") != ("a", "b_c")
    ensures RoomGroupName("a_b", "c") == RoomGroupName("a", "b_c") == "chat_a_b_c"
  {
    assert AllAllowed("a_b") && AllAllowed("c") && AllAllowed("a") && AllAllowed("b_c");
    RoomKeyOfCleanNames("a_b", "c");
    RoomKeyOfCleanNames("a", "b_c");
    assert Prefix + "a_b" + "_" + "c" == "chat_a_b_c";
    assert Prefix + "a" + "_" + "b_c" == "chat_a_b_c";
  }

  /** alice talking to bob and bob talking to alice are put in two different rooms. */
  lemma RoomKeyAsymmetric()
    ensures RoomGroupName("alice", "bob") == "chat_alice_bob"
    ensures RoomGroupName("bob", "alice") == "chat_bob_alice"
    ensures RoomGroupName("alice", "bob") != RoomGroupName("bob", "alice")
  {
    assert AllAllowed("alice") && AllAllowed("bob");
    RoomKeyOfCleanNames("alice", "bob");
    RoomKeyOfCleanNames("bob", "alice");
    assert Prefix + "alice" + "_" + "bob" == "chat_alice_bob";
    assert Prefix + "bob" + "_" + "alice" == "chat_bob_alice";
    assert "chat_alice_bob"[5] != "chat_bob_alice"[5];
  }

  /** Names of different lengths can still collide when swapped. */
  lemma RoomKeySwapCollision()
    ensures "x" != "x_x"
    ensures RoomGroupName("x", "x_x") == RoomGroupName("x_x", "x")
  {
    assert AllAllowed("x") && AllAllowed("x_x");
    RoomKeyOfCleanNames("x", "x_x");
    RoomKeyOfCleanNames("x_x", "x");
    assert Prefix + "x" + "_" + "x_x" == Prefix + "x_x" + "_" + "x";
  }
}
