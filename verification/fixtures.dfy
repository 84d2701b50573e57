/**
 * The fixed pool of test identities and the selection of one identity per
 * iteration (k6_load_test.js, testUsers and the first line of testLogin).
 */
module Fixtures {

  /** The `type` tag of a test user: already migrated, legacy, or bad credentials. */
  datatype UserType = Existing | Legacy | Invalid

  datatype TestUser = TestUser(username: string, password: string, userType: UserType)

  /** The five identities every virtual user draws from. */
  const TestUsers: seq<TestUser> := [
    TestUser("migrated@test.com", "MigratedPass123!", Existing),
    TestUser("legacy@test.com", "LegacyPass123!", Legacy),
    TestUser("admin@legacy.com", "AdminPass456!", Legacy),
    TestUser("newuser@test.com", "NewUserPass789!", Legacy),
    TestUser("invalid@test.com", "WrongPass!", Invalid)
  ]

  /** Number of pool entries whose type is `t`. */
  function CountOfType(users: seq<TestUser>, t: UserType): nat
  {
    if users == [] then 0
    else (if users[0].userType == t then 1 else 0) + CountOfType(users[1..], t)
  }

  /** The pool holds one migrated user, three legacy users and one invalid identity. */
  lemma PoolComposition()
    ensures |TestUsers| == 5
    ensures CountOfType(TestUsers, Existing) == 1
    ensures CountOfType(TestUsers, Legacy) == 3
    ensures CountOfType(TestUsers, Invalid) == 1
  {
  }

  /**
   * `Math.floor(roll * testUsers.length)` for a roll in [0, 1): always a valid
   * index, and the index whose bucket [i/5, (i+1)/5) contains the roll.
   */
  function UserIndex(roll: real): (i: nat)
    requires 0.0 <= roll < 1.0
    ensures i < |TestUsers|
    ensures i as real <= roll * |TestUsers| as real < i as real + 1.0
  {
    (roll * |TestUsers| as real).Floor
  }

  /** Every pool entry is drawn by exactly the rolls in its own fifth of [0, 1). */
  lemma UserIndexBucket(roll: real, i: nat)
    requires 0.0 <= roll < 1.0
    requires i < |TestUsers|
    ensures UserIndex(roll) == i <==> i as real / 5.0 <= roll < (i + 1) as real / 5.0
  {
  }

  /** The user one iteration probes with. */
  function PickUser(roll: real): (u: TestUser)
    requires 0.0 <= roll < 1.0
    ensures u in TestUsers
  {
    TestUsers[UserIndex(roll)]
  }
}
