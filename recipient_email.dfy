/**
 * Counterpart resolution (utils/getRecipientEmail.ts): the first member of a
 * conversation whose address differs from the signed-in user's email.
 */
module RecipientEmail {
  import opened Wrappers
  import opened Types

  /** `loggedInUser?.email`: absent when nobody is signed in or the user has no email. */
  function SelfEmail(loggedInUser: Option<User>): Option<string>
  {
    match loggedInUser
    case None => None
    case Some(u) => u.email
  }

  /** `userEmail !== loggedInUser?.email`: a string always differs from `undefined` and `null`. */
  predicate IsOther(userEmail: string, self: Option<string>)
  {
    self.None? || userEmail != self.value
  }

  /** Index `i` holds the first member that differs from `self`. */
  predicate FirstOther(users: seq<string>, self: Option<string>, i: int)
  {
    && 0 <= i < |users|
    && IsOther(users[i], self)
    && forall j :: 0 <= j < i ==> !IsOther(users[j], self)
  }

  /** `conversationUsers.find(userEmail => userEmail !== loggedInUser?.email)` */
  function GetRecipientEmail(conversationUsers: seq<string>, loggedInUser: Option<User>): (r: Option<string>)
    ensures r.Some? ==> r.value in conversationUsers && IsOther(r.value, SelfEmail(loggedInUser))
    ensures r.Some? ==> exists i :: FirstOther(conversationUsers, SelfEmail(loggedInUser), i) && conversationUsers[i] == r.value
    ensures r.None? <==> forall j :: 0 <= j < |conversationUsers| ==> !IsOther(conversationUsers[j], SelfEmail(loggedInUser))
  {
    if |conversationUsers| == 0 then None
    else if IsOther(conversationUsers[0], SelfEmail(loggedInUser)) then Some(conversationUsers[0])
    else
      GetRecipientEmail(conversationUsers[1..], loggedInUser)
  }

  /** The members that differ from `self`, in list order: the reference definition `find` is measured against. */
  function Others(users: seq<string>, self: Option<string>): (r: seq<string>)
    ensures |r| <= |users|
    ensures forall x :: x in r ==> x in users && IsOther(x, self)
    ensures forall x :: x in users && IsOther(x, self) ==> x in r
    ensures r != [] ==> exists i :: FirstOther(users, self, i) && r[0] == users[i]
  {
    if |users| == 0 then []
    else if IsOther(users[0], self) then [users[0]] + Others(users[1..], self)
    else Others(users[1..], self)
  }

  /** `find` returns the head of the filtered list, and `undefined` when that list is empty. */
  lemma RecipientIsFirstOfOthers(conversationUsers: seq<string>, loggedInUser: Option<User>)
    ensures var others := Others(conversationUsers, SelfEmail(loggedInUser));
      GetRecipientEmail(conversationUsers, loggedInUser) == if others == [] then None else Some(others[0])
  {
  }

  /** The first-ness conditions pin the result down: any first differing member is the one returned. */
  lemma FirstOtherIsRecipient(conversationUsers: seq<string>, loggedInUser: Option<User>, i: int)
    requires FirstOther(conversationUsers, SelfEmail(loggedInUser), i)
    ensures GetRecipientEmail(conversationUsers, loggedInUser) == Some(conversationUsers[i])
  {
  }

  /** In a two-member conversation each member's counterpart is the other member. */
  lemma TwoPartyCounterpart(a: string, b: string)
    requires a != b
    ensures GetRecipientEmail([a, b], Some(User(Some(a)))) == Some(b)
    ensures GetRecipientEmail([a, b], Some(User(Some(b)))) == Some(a)
  {
  }

  /** A conversation with nobody but the signed-in user has no counterpart, whether empty or a self-conversation. */
  lemma NoCounterpartWithoutOthers(n: nat, self: string)
    ensures GetRecipientEmail([], Some(User(Some(self)))) == None
    ensures GetRecipientEmail(seq(n, _ => self), Some(User(Some(self)))) == None
  {
  }

  /** With nobody signed in, or a user without an email, every member differs, so the first member is returned. */
  lemma NoSelfEmailGivesFirstMember(conversationUsers: seq<string>, loggedInUser: Option<User>)
    requires loggedInUser.None? || loggedInUser.value.email.None?
    requires |conversationUsers| > 0
    ensures GetRecipientEmail(conversationUsers, loggedInUser) == Some(conversationUsers[0])
  {
  }

  /** When the signed-in user is not a member, the first member is returned. */
  lemma NonMemberGetsFirstMember(conversationUsers: seq<string>, email: string)
    requires email !in conversationUsers
    requires |conversationUsers| > 0
    ensures GetRecipientEmail(conversationUsers, Some(User(Some(email)))) == Some(conversationUsers[0])
  {
  }
}
