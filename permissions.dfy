/**
 * The permission model of the core command handler: dotted permission paths with a `*`
 * wildcard segment, and a per-user list of granted permissions.
 */
module Permissions {
  import opened JavaText
  import CommandAnnotation

  // ---------------------------------------------------------------------------
  // checkPermission

  /**
   * Segment-wise comparison of a held permission `h` against a required one `r`: at the
   * first segment where they differ (ignoring case) the held segment must be `*`; if they
   * agree on every common segment, the segment counts must be equal.
   */
  function SegmentsGrant(h: seq<string>, r: seq<string>): bool
    decreases |h|
  {
    if h == [] || r == [] then |h| == |r|
    else if !EqualsIgnoreCase(h[0], r[0]) then h[0] == "*"
    else SegmentsGrant(h[1..], r[1..])
  }

  /** Whether a held permission string grants a required permission string. */
  predicate Grants(has: string, required: string) {
    SegmentsGrant(JavaSplit(Dot, has), JavaSplit(Dot, required))
  }

  /** The segments agree, ignoring case, on the first `n` positions. */
  predicate AgreeBefore(h: seq<string>, r: seq<string>, n: nat) {
    n <= |h| && n <= |r| && forall i :: 0 <= i < n ==> EqualsIgnoreCase(h[i], r[i])
  }

  /** The first position where the segments differ, or the shorter length if none does. */
  function FirstDivergence(h: seq<string>, r: seq<string>): (k: nat)
    ensures AgreeBefore(h, r, k)
    ensures k < |h| && k < |r| ==> !EqualsIgnoreCase(h[k], r[k])
    ensures k == |h| || k == |r| || (k < |h| && k < |r|)
    decreases |h|
  {
    if h == [] || r == [] || !EqualsIgnoreCase(h[0], r[0]) then 0
    else 1 + FirstDivergence(h[1..], r[1..])
  }

  /**
   * Characterisation of the matcher: it grants iff the held segment at the first divergence
   * is `*`, or there is no divergence and both have the same number of segments.
   */
  lemma {:induction false} SegmentsGrantAtDivergence(h: seq<string>, r: seq<string>)
    ensures var k := FirstDivergence(h, r);
      SegmentsGrant(h, r) <==> if k < |h| && k < |r| then h[k] == "*" else |h| == |r|
    decreases |h|
  {
    if h != [] && r != [] && EqualsIgnoreCase(h[0], r[0]) {
      SegmentsGrantAtDivergence(h[1..], r[1..]);
    }
  }

  /**
   * Without a `*` segment, a held permission grants exactly the required permissions with the
   * same number of segments, each equal ignoring case.
   */
  lemma NoWildcardMeansExactMatch(h: seq<string>, r: seq<string>)
    requires forall i :: 0 <= i < |h| ==> h[i] != "*"
    ensures SegmentsGrant(h, r) <==> |h| == |r| && AgreeBefore(h, r, |h|)
  {
    SegmentsGrantAtDivergence(h, r);
    var k := FirstDivergence(h, r);
    if |h| == |r| && AgreeBefore(h, r, |h|) {
      assert k == |h|;
    }
  }

  /** A `*` at the first divergence grants whatever follows it, in either string. */
  lemma WildcardAtDivergenceGrants(h: seq<string>, r: seq<string>, k: nat)
    requires AgreeBefore(h, r, k) && k < |h| && k < |r|
    requires h[k] == "*" && !EqualsIgnoreCase(h[k], r[k])
    ensures SegmentsGrant(h, r)
  {
    SegmentsGrantAtDivergence(h, r);
    FirstDivergenceIsFirst(h, r, k);
  }

  lemma {:induction false} FirstDivergenceIsFirst(h: seq<string>, r: seq<string>, k: nat)
    requires AgreeBefore(h, r, k) && k < |h| && k < |r| && !EqualsIgnoreCase(h[k], r[k])
    ensures FirstDivergence(h, r) == k
    decreases k
  {
    if k > 0 {
      assert EqualsIgnoreCase(h[0], r[0]);
      assert AgreeBefore(h[1..], r[1..], k - 1) by {
        forall i | 0 <= i < k - 1 ensures EqualsIgnoreCase(h[1..][i], r[1..][i]) {
          assert EqualsIgnoreCase(h[i + 1], r[i + 1]);
        }
      }
      FirstDivergenceIsFirst(h[1..], r[1..], k - 1);
    }
  }

  lemma SplitAdminStar()
    ensures JavaSplit(Dot, "admin.*") == ["admin", "*"]
  {
    assert NoDelimiter(Dot, "admin");
    assert NoDelimiter(Dot, "*");
    assert ["admin", "*"][1..] == ["*"];
    assert Join(Dot, ["admin", "*"]) == "admin.*";
    SplitOfJoin(Dot, ["admin", "*"]);
  }

  lemma SplitAdmin()
    ensures JavaSplit(Dot, "admin") == ["admin"]
  {
    assert NoDelimiter(Dot, "admin");
    assert Join(Dot, ["admin"]) == "admin";
    SplitOfJoin(Dot, ["admin"]);
  }

  lemma SplitAdminBan()
    ensures JavaSplit(Dot, "admin.ban") == ["admin", "ban"]
  {
    assert NoDelimiter(Dot, "admin");
    assert NoDelimiter(Dot, "ban");
    assert ["admin", "ban"][1..] == ["ban"];
    assert Join(Dot, ["admin", "ban"]) == "admin.ban";
    SplitOfJoin(Dot, ["admin", "ban"]);
  }

  lemma SplitAdminBanTemp()
    ensures JavaSplit(Dot, "admin.ban.temp") == ["admin", "ban", "temp"]
  {
    assert NoDelimiter(Dot, "admin");
    assert NoDelimiter(Dot, "ban");
    assert NoDelimiter(Dot, "temp");
    assert ["ban", "temp"][1..] == ["temp"];
    assert ["admin", "ban", "temp"][1..] == ["ban", "temp"];
    assert Join(Dot, ["admin", "ban", "temp"]) == "admin.ban.temp";
    SplitOfJoin(Dot, ["admin", "ban", "temp"]);
  }

  /** A `*` at the first differing segment grants deeper paths: "admin.*" grants "admin.ban.temp". */
  lemma WildcardGrantsDeeperPath()
    ensures Grants("admin.*", "admin.ban.temp")
  {
    SplitAdminStar();
    SplitAdminBanTemp();
    StarAtSecondSegment();
  }

  /** Segment by segment, ["admin", "*"] grants ["admin", "ban", "temp"]: agreement at 0, `*` at 1. */
  lemma StarAtSecondSegment()
    ensures SegmentsGrant(["admin", "*"], ["admin", "ban", "temp"])
  {
    var h, r := ["admin", "*"], ["admin", "ban", "temp"];
    assert EqualsIgnoreCase(h[0], r[0]);
    assert !EqualsIgnoreCase(h[1], r[1]) by { assert |Lower(h[1])| == 1 && |Lower(r[1])| == 3; }
    WildcardAtDivergenceGrants(h, r, 1);
  }

  /** A `*` that is never reached does not rescue a length mismatch: "admin.*" does not grant "admin". */
  lemma UnreachedWildcardDoesNotGrant()
    ensures !Grants("admin.*", "admin")
  {
    SplitAdminStar();
    SplitAdmin();
  }

  /** Without a wildcard neither a prefix nor an extension is granted. */
  lemma PrefixAndExtensionNotGranted()
    ensures !Grants("admin", "admin.ban")
    ensures !Grants("admin.ban", "admin")
  {
    SplitAdmin();
    SplitAdminBan();
  }

  // ---------------------------------------------------------------------------
  // The permission store and hasPermission

  /** User id to the permissions granted to that user, in the order they were added. */
  type Store = map<string, seq<string>>

  /** The user's list of granted permissions, empty when the user has no entry. */
  function Held(perms: Store, user: string): seq<string> {
    if user in perms then perms[user] else []
  }

  /**
   * `hasPermission`: "none" and "" are open to everyone; otherwise the user needs an entry and
   * some permission in it that grants the required one.
   */
  predicate Permits(perms: Store, user: string, required: string) {
    required == "none" || required == "" ||
    (user in perms && exists k :: 0 <= k < |perms[user]| && Grants(perms[user][k], required))
  }

  /** `addPermission`: appends to the user's list, creating it when absent; duplicates are kept. */
  function Grant(perms: Store, user: string, permission: string): (r: Store)
    ensures user in r && r[user] == Held(perms, user) + [permission]
    ensures forall v :: v != user ==> (v in r <==> v in perms)
    ensures forall v :: v != user && v in perms ==> r[v] == perms[v]
  {
    perms[user := Held(perms, user) + [permission]]
  }

  /** "none" and the empty string are granted to every user, with or without an entry. */
  lemma OpenPermissions(perms: Store, user: string)
    ensures Permits(perms, user, "none") && Permits(perms, user, "")
  {
  }

  /** A user with no entry is denied every permission other than "none" and "". */
  lemma UnknownUserDenied(perms: Store, user: string, required: string)
    requires user !in perms && required != "none" && required != ""
    ensures !Permits(perms, user, required)
  {
  }

  /** Adding a permission never takes one away, from any user. */
  lemma GrantIsMonotone(perms: Store, user: string, permission: string, other: string, required: string)
    requires Permits(perms, other, required)
    ensures Permits(Grant(perms, user, permission), other, required)
  {
    if required != "none" && required != "" {
      var k :| 0 <= k < |perms[other]| && Grants(perms[other][k], required);
      var after := Grant(perms, user, permission);
      assert after[other][k] == perms[other][k];
    }
  }

  /** After a grant the user holds exactly what they held before plus what the new permission grants. */
  lemma GrantAdds(perms: Store, user: string, permission: string, required: string)
    ensures Permits(Grant(perms, user, permission), user, required) <==>
      Permits(perms, user, required) || Grants(permission, required)
  {
    var after := Grant(perms, user, permission);
    var n := |Held(perms, user)|;
    if required != "none" && required != "" {
      if Permits(after, user, required) && !Grants(permission, required) {
        var k :| 0 <= k < |after[user]| && Grants(after[user][k], required);
        assert k < n;
        assert after[user][k] == perms[user][k];
      }
      if Permits(perms, user, required) {
        var k :| 0 <= k < |perms[user]| && Grants(perms[user][k], required);
        assert after[user][k] == perms[user][k];
      }
      if Grants(permission, required) {
        assert after[user][n] == permission;
      }
    }
  }

  /** A grant for one user changes nothing for any other user. */
  lemma GrantKeepsOthers(perms: Store, user: string, permission: string, other: string, required: string)
    requires other != user
    ensures Permits(Grant(perms, user, permission), other, required) <==> Permits(perms, other, required)
  {
  }

  /** The command default "none" is open to every user. */
  lemma DefaultCommandIsOpen(perms: Store, user: string, aliases: seq<string>)
    ensures Permits(perms, user, CommandAnnotation.Annotation(aliases).requiredPermissions)
  {
  }
}
