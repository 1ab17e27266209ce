/**
  The info-service: the system of record for members. Its `MemberService`
  reads and writes a member repository keyed by id; here the repository is a
  `map<Long, Member>` field that the operations read or reassign.
*/
module MemberStore {
  import opened LongText

  /** A member row: the id the repository keys it by, a name and a contact. */
  datatype Member = Member(id: Long, name: string, contact: string)

  /** The errors this service defines. Only `MemberNotFound` is ever raised by it. */
  datatype ServiceError = MemberNotFound(id: Long) | MemberAlreadyExists(name: string)
  {
    /** The exception's message text. */
    function Message(): string {
      match this
      case MemberNotFound(id) => "Member not found with id: " + LongToString(id)
      case MemberAlreadyExists(name) => "Member already exists: " + name
    }
  }

  /** An operation's answer: the member, or the exception it throws. */
  datatype Result<T> = Ok(value: T) | Err(error: ServiceError)

  /** Different missing ids give different not-found messages, so the message names its id. */
  lemma NotFoundMessageNamesId(a: Long, b: Long)
    ensures MemberNotFound(a).Message() == MemberNotFound(b).Message() ==> a == b
  {
    PrefixedIdInjective("Member not found with id: ", a, b);
  }

  /** Every row is stored under its own id. */
  ghost predicate Keyed(rows: map<Long, Member>) {
    forall k :: k in rows ==> rows[k].id == k
  }

  /** When every row is stored under its own id, there are as many distinct rows as keys. */
  lemma {:induction false} KeyedRowsDistinct(rows: map<Long, Member>)
    requires Keyed(rows)
    ensures |rows.Values| == |rows.Keys|
    decreases |rows.Keys|
  {
    if rows.Keys != {} {
      var k :| k in rows.Keys;
      var rest := rows - {k};
      assert rest.Keys == rows.Keys - {k};
      KeyedRowsDistinct(rest);
      assert rows[k] !in rest.Values;
      assert rows.Values == rest.Values + {rows[k]} by {
        forall m | m in rows.Values ensures m in rest.Values + {rows[k]} {
          var j :| j in rows && rows[j] == m;
          if j != k { assert rest[j] == m; }
        }
      }
    }
  }

  class MemberService {
    /** The member repository's rows, by id. */
    var repository: map<Long, Member>

    ghost predicate Valid()
      reads this
    {
      Keyed(repository)
    }

    constructor (rows: map<Long, Member>)
      requires Keyed(rows)
      ensures Valid() && repository == rows
    {
      repository := rows;
    }

    /**
      Saves the member as a new row. There is no duplicate check: a member
      equal in name and contact to a stored one is saved as well. The
      repository chooses the new row's key; `newId` stands for that choice.
    */
    method CreateMember(member: Member, newId: Long) returns (saved: Member)
      requires Valid()
      requires newId !in repository
      modifies this
      ensures Valid()
      ensures saved == member.(id := newId)
      ensures repository == old(repository)[newId := saved]
      ensures |repository| == |old(repository)| + 1
    {
      saved := member.(id := newId);
      repository := repository[newId := saved];
    }

    /** The stored member with this id, or not-found; reading changes nothing. */
    method GetMember(id: Long) returns (r: Result<Member>)
      ensures r.Ok? <==> id in repository
      ensures r.Ok? ==> r.value == repository[id]
      ensures r.Err? ==> r.error == MemberNotFound(id)
    {
      if id in repository {
        r := Ok(repository[id]);
      } else {
        r := Err(MemberNotFound(id));
      }
    }

    /** Every stored member, each once. */
    method GetAllMembers() returns (all: set<Member>)
      requires Valid()
      ensures forall m :: m in all <==> m.id in repository && repository[m.id] == m
      ensures |all| == |repository|
    {
      all := repository.Values;
      KeyedRowsDistinct(repository);
    }

    /**
      Overwrites the name and contact of the stored member with those of
      `updated`; the stored id is kept and `updated.id` is ignored. A missing id
      fails with not-found and changes nothing.
    */
    method UpdateMember(id: Long, updated: Member) returns (r: Result<Member>)
      requires Valid()
      modifies this
      ensures Valid()
      ensures r.Ok? <==> id in old(repository)
      ensures r.Ok? ==> r.value == Member(id, updated.name, updated.contact)
      ensures r.Ok? ==> repository == old(repository)[id := r.value]
      ensures r.Err? ==> r.error == MemberNotFound(id) && repository == old(repository)
    {
      if id in repository {
        var existing := repository[id];
        existing := existing.(name := updated.name, contact := updated.contact);
        repository := repository[id := existing];
        r := Ok(existing);
      } else {
        r := Err(MemberNotFound(id));
      }
    }

    /**
      Removes the member with this id, after checking that it exists; a
      missing id fails with not-found before anything is removed.
    */
    method DeleteMember(id: Long) returns (failure: Wrappers.Option<ServiceError>)
      requires Valid()
      modifies this
      ensures Valid()
      ensures failure.None? <==> id in old(repository)
      ensures failure.None? ==> repository == old(repository) - {id}
      ensures failure.Some? ==> failure.value == MemberNotFound(id) && repository == old(repository)
    {
      if id !in repository {
        return Wrappers.Some(MemberNotFound(id));
      }
      repository := repository - {id};
      failure := Wrappers.None;
    }
  }
}
