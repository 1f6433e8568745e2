/**
 * The `OshiMember` entity of the backend
 * (oshimember/domain/model/OshiMember.java). The clock is passed in: each
 * `LocalDateTime.now()` of the source is one argument.
 */
module OshiMemberModel {
  import opened Wrappers

  /** Java's `byte`. */
  newtype JavaByte = x: int | -128 <= x < 128

  datatype LocalDate = LocalDate(year: int, month: int, day: int)
  datatype LocalDateTime = LocalDateTime(date: LocalDate, nanoOfDay: int)

  /** The group a member belongs to; the `OshiGroup` entity is not part of this model, only its id. */
  datatype GroupRef = GroupRef(groupId: int)

  /**
   * A member. Reference-typed fields are null (None) until assigned: `id` and
   * `oshiGroup` are assigned by the persistence layer, never by this class.
   */
  class OshiMember {
    var id: Option<int>
    var oshiGroup: Option<GroupRef>
    var memberName: Option<string>
    var gender: JavaByte
    var birthDay: Option<LocalDate>
    var createdAt: Option<LocalDateTime>
    var updatedAt: Option<LocalDateTime>

    /** The no-argument constructor JPA uses: every field keeps its Java default. */
    constructor ForJpa()
      ensures id == None && oshiGroup == None && memberName == None && gender == 0
      ensures birthDay == None && createdAt == None && updatedAt == None
    {
      id, oshiGroup, memberName, gender := None, None, None, 0;
      birthDay, createdAt, updatedAt := None, None, None;
    }

    /** The business constructor; the clock is read twice, once per timestamp. */
    constructor (memberName: string, gender: JavaByte, birthDay: LocalDate,
                 firstNow: LocalDateTime, secondNow: LocalDateTime)
      ensures this.memberName == Some(memberName) && this.gender == gender && this.birthDay == Some(birthDay)
      ensures createdAt == Some(firstNow) && updatedAt == Some(secondNow)
      ensures id == None && oshiGroup == None
    {
      id, oshiGroup := None, None;
      this.memberName := Some(memberName);
      this.gender := gender;
      this.birthDay := Some(birthDay);
      createdAt := Some(firstNow);
      updatedAt := Some(secondNow);
    }

    /** `update`: the three attributes and the modification time; identity, group and creation time stay. */
    method Update(memberName: string, gender: JavaByte, birthDay: LocalDate, now: LocalDateTime)
      modifies this`memberName, this`gender, this`birthDay, this`updatedAt
      ensures this.memberName == Some(memberName) && this.gender == gender && this.birthDay == Some(birthDay)
      ensures updatedAt == Some(now)
      ensures id == old(id) && oshiGroup == old(oshiGroup) && createdAt == old(createdAt)
    {
      this.memberName := Some(memberName);
      this.gender := gender;
      this.birthDay := Some(birthDay);
      updatedAt := Some(now);
    }
  }

  /** After an update the creation time is still the one the constructor read. */
  method CreateThenUpdate(name: string, gender: JavaByte, birthDay: LocalDate, created: LocalDateTime,
                          newName: string, newGender: JavaByte, newBirthDay: LocalDate, edited: LocalDateTime)
    returns (m: OshiMember)
    ensures fresh(m) && m.id == None && m.oshiGroup == None
    ensures m.createdAt == Some(created) && m.updatedAt == Some(edited)
    ensures m.memberName == Some(newName) && m.gender == newGender && m.birthDay == Some(newBirthDay)
  {
    m := new OshiMember(name, gender, birthDay, created, created);
    m.Update(newName, newGender, newBirthDay, edited);
  }
}
