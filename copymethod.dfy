/** Copying a person with friends through DeepCopy methods. The address is
    copied into a new object, but the friends slice is copied onto itself,
    so the copy still shares the original's backing array. */
module CopyMethod {

  class Address {
    var streetAddress: string
    var city: string
    var country: string

    constructor (streetAddress: string, city: string, country: string)
      ensures this.streetAddress == streetAddress && this.city == city && this.country == country
    {
      this.streetAddress, this.city, this.country := streetAddress, city, country;
    }

    /** A new address with the same three fields. */
    method DeepCopy() returns (r: Address)
      ensures fresh(r)
      ensures r.streetAddress == streetAddress && r.city == city && r.country == country
    {
      r := new Address(streetAddress, city, country);
    }
  }

  /** Go's PersonWithFriends embeds a Person (a name and an address
      pointer) and adds a slice of friends. The slice is an array whose
      length is the slice's length. */
  class PersonWithFriends {
    var name: string
    var address: Address
    var friends: array<string>

    constructor (name: string, address: Address, friends: array<string>)
      ensures this.name == name && this.address == address && this.friends == friends
    {
      this.name, this.address, this.friends := name, address, friends;
    }

    /** q := *p copies the fields, q gets a new address, then the friends
        are copied from p's slice into q's slice, which is the same array.
        The copy is a new object with its own address; its friends are the
        original's array, whose contents do not change. */
    method DeepCopy() returns (q: PersonWithFriends)
      modifies friends
      ensures fresh(q) && fresh(q.address)
      ensures q.name == name
      ensures q.address.streetAddress == address.streetAddress
      ensures q.address.city == address.city && q.address.country == address.country
      ensures q.friends == friends && friends[..] == old(friends[..])
    {
      q := new PersonWithFriends(name, address, friends);
      q.address := address.DeepCopy();
      var n := Copy(q.friends, friends);
    }
  }

  /** Go's copy: the first n elements of src go to dst, n the shorter
      length; everything after stays. dst and src may be the same array. */
  method Copy(dst: array<string>, src: array<string>) returns (n: int)
    modifies dst
    ensures n == if dst.Length < src.Length then dst.Length else src.Length
    ensures dst[..n] == old(src[..n])
    ensures dst[n..] == old(dst[n..])
  {
    n := if dst.Length < src.Length then dst.Length else src.Length;
    for i := 0 to n
      invariant forall k :: 0 <= k < i ==> dst[k] == old(src[k])
      invariant forall k :: i <= k < dst.Length ==> dst[k] == old(dst[k])
      invariant forall k :: i <= k < src.Length ==> src[k] == old(src[k])
    {
      dst[i] := src[i];
    }
  }

  /** Copying an array onto itself leaves it as it was. */
  method CopyOntoItselfChangesNothing(a: array<string>) returns (n: int)
    modifies a
    ensures n == a.Length && a[..] == old(a[..])
  {
    n := Copy(a, a);
    assert a[..] == a[..n] + a[n..];
  }

  /** Go's append on a slice whose capacity equals its length, as a slice
      literal's does: a new array with x after the old elements. */
  method Append(s: array<string>, x: string) returns (t: array<string>)
    ensures fresh(t) && t[..] == s[..] + [x]
  {
    var elems := s[..];
    t := new string[s.Length + 1](i => if 0 <= i < |elems| then elems[i] else x);
  }

  /** After DeepCopy, a friend written through the copy is seen through the
      original, and an address written through the copy is not. */
  method CopySharesFriendsOnly(p: PersonWithFriends, friend: string, street: string)
    returns (q: PersonWithFriends)
    requires p.friends.Length > 0
    modifies p.friends
    ensures q.friends == p.friends && p.friends[0] == friend
    ensures q.address.streetAddress == street
    ensures p.address.streetAddress == old(p.address.streetAddress)
  {
    q := p.DeepCopy();
    q.friends[0] := friend;
    q.address.streetAddress := street;
  }

  /** The demonstration: Jane is copied from John and then renamed, moved
      and given a third friend; John keeps his name, address and friends. */
  method CopyMethodDemo() returns (john: PersonWithFriends, jane: PersonWithFriends)
    ensures john.name == "John" && john.address.streetAddress == "123 London Rd"
    ensures john.friends[..] == ["Chris", "Matt"]
    ensures jane.name == "Jane" && jane.address.streetAddress == "321 Baker St"
    ensures jane.address.city == "London" && jane.address.country == "UK"
    ensures jane.friends[..] == ["Chris", "Matt", "Angela"]
  {
    var address := new Address("123 London Rd", "London", "UK");
    var friends := new string[2](i => if i == 0 then "Chris" else "Matt");
    john := new PersonWithFriends("John", address, friends);
    jane := john.DeepCopy();
    jane.name := "Jane";
    jane.address.streetAddress := "321 Baker St";
    jane.friends := Append(jane.friends, "Angela");
  }
}
