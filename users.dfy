/** The user serializer (`users/serializers.py`): the defaults `create` fills
    in, and `update`, which assigns each supplied field, changes the password
    only when a non-empty one is given, and saves once.

    Password hashing is not modelled: a stored password is either unusable or
    stands for the hash of the raw password it was set from. */
module Users {
  import opened Common

  datatype Password = Unusable | HashOf(raw: string)

  /** The stored fields of a user. */
  datatype UserFields = UserFields(
    username: string, email: string, firstName: string, lastName: string, role: string,
    designation: string, phoneNumber: string, isActive: bool, password: Password)

  /** The validated data: one optional value per writable field. */
  datatype UserInput = UserInput(
    username: Option<string>, email: Option<string>, firstName: Option<string>,
    lastName: Option<string>, role: Option<string>, designation: Option<string>,
    phoneNumber: Option<string>, isActive: Option<bool>, password: Option<string>)

  /** `validated_data.get(key, default)`. */
  function Get<T>(o: Option<T>, default: T): (r: T)
    ensures o.Some? ==> r == o.value
    ensures o.None? ==> r == default
  {
    if o.Some? then o.value else default
  }

  const DefaultRole := "viewer"

  /** The password `create_user` stores: unusable when none is given. */
  function InitialPassword(p: Option<string>): (r: Password)
    ensures r.Unusable? <==> p.None?
    ensures p.Some? ==> r == HashOf(p.value)
  {
    if p.Some? then HashOf(p.value) else Unusable
  }

  /** The user `create` makes through `create_user`. The username is the one
      required field; `is_active` is not passed on, so the new user is active. */
  function Created(input: UserInput): (u: UserFields)
    requires input.username.Some?
    ensures u.username == input.username.value && u.isActive
    ensures u.role == (if input.role.Some? then input.role.value else DefaultRole)
    ensures u.email == (if input.email.Some? then input.email.value else "")
    ensures u.firstName == (if input.firstName.Some? then input.firstName.value else "")
    ensures u.lastName == (if input.lastName.Some? then input.lastName.value else "")
    ensures u.designation == (if input.designation.Some? then input.designation.value else "")
    ensures u.phoneNumber == (if input.phoneNumber.Some? then input.phoneNumber.value else "")
    ensures u.password.Unusable? <==> input.password.None?
  {
    UserFields(input.username.value, Get(input.email, ""), Get(input.firstName, ""), Get(input.lastName, ""),
               Get(input.role, DefaultRole), Get(input.designation, ""), Get(input.phoneNumber, ""),
               true, InitialPassword(input.password))
  }

  /** A user created from the username alone gets every default. */
  lemma CreatedDefaults(username: string)
    ensures Created(UserInput(Some(username), None, None, None, None, None, None, None, None))
            == UserFields(username, "", "", "", DefaultRole, "", "", true, Unusable)
  {
  }

  /** The fields after `update`: each supplied field replaces the stored one,
      and the password is reset only by a non-empty one. */
  function Updated(u: UserFields, input: UserInput): UserFields
  {
    UserFields(Get(input.username, u.username), Get(input.email, u.email), Get(input.firstName, u.firstName),
               Get(input.lastName, u.lastName), Get(input.role, u.role), Get(input.designation, u.designation),
               Get(input.phoneNumber, u.phoneNumber), Get(input.isActive, u.isActive),
               if input.password.Some? && input.password.value != "" then HashOf(input.password.value) else u.password)
  }

  /** A missing or empty password leaves the stored one; a non-empty one
      replaces it. */
  lemma UpdatePasswordRule(u: UserFields, input: UserInput)
    ensures (input.password.None? || input.password.value == "") ==> Updated(u, input).password == u.password
    ensures input.password.Some? && input.password.value != "" ==>
              Updated(u, input).password == HashOf(input.password.value)
  {
  }

  /** Updating with nothing changes nothing, and updating twice with the same
      data is updating once. */
  lemma UpdateIdempotent(u: UserFields, input: UserInput)
    ensures Updated(u, UserInput(None, None, None, None, None, None, None, None, None)) == u
    ensures Updated(Updated(u, input), input) == Updated(u, input)
  {
  }

  /** The serializer's output: the listed fields without the write-only
      password. */
  datatype UserView = UserView(
    id: nat, username: string, email: string, firstName: string, lastName: string, role: string,
    designation: string, phoneNumber: string, isActive: bool)

  function ViewOf(id: nat, u: UserFields): (v: UserView)
    ensures v.id == id && v.username == u.username && v.email == u.email && v.isActive == u.isActive
  {
    UserView(id, u.username, u.email, u.firstName, u.lastName, u.role, u.designation, u.phoneNumber, u.isActive)
  }

  /** The password never shows: users differing only in it look the same. */
  lemma ViewHidesPassword(id: nat, u: UserFields, p: Password)
    ensures ViewOf(id, u.(password := p)) == ViewOf(id, u)
  {
  }

  /** A user row; `saves` counts the writes `save` made. */
  class User {
    const id: nat
    var username: string
    var email: string
    var firstName: string
    var lastName: string
    var role: string
    var designation: string
    var phoneNumber: string
    var isActive: bool
    var password: Password
    var saves: nat

    function Fields(): UserFields
      reads this
    {
      UserFields(username, email, firstName, lastName, role, designation, phoneNumber, isActive, password)
    }

    /** `create_user`: a new row holding the created fields, written once. */
    constructor (newId: nat, input: UserInput)
      requires input.username.Some?
      ensures id == newId && Fields() == Created(input) && saves == 1
    {
      id := newId;
      username := input.username.value;
      email := Get(input.email, "");
      firstName := Get(input.firstName, "");
      lastName := Get(input.lastName, "");
      role := Get(input.role, DefaultRole);
      designation := Get(input.designation, "");
      phoneNumber := Get(input.phoneNumber, "");
      isActive := true;
      password := InitialPassword(input.password);
      saves := 1;
    }

    method SetPassword(raw: string)
      modifies this
      ensures Fields() == old(Fields()).(password := HashOf(raw)) && saves == old(saves)
    {
      password := HashOf(raw);
    }

    method Save()
      modifies this
      ensures Fields() == old(Fields()) && saves == old(saves) + 1
    {
      saves := saves + 1;
    }
  }

  /** `UserSerializer.update`: the fields are assigned one by one, the
      password is set when a truthy one is given, the row is saved once and
      the same instance is returned. */
  method Update(instance: User, input: UserInput) returns (r: User)
    modifies instance
    ensures r == instance
    ensures instance.Fields() == Updated(old(instance.Fields()), input)
    ensures instance.saves == old(instance.saves) + 1
  {
    ghost var before := instance.Fields();
    instance.username := Get(input.username, instance.username);
    instance.email := Get(input.email, instance.email);
    instance.firstName := Get(input.firstName, instance.firstName);
    instance.lastName := Get(input.lastName, instance.lastName);
    instance.role := Get(input.role, instance.role);
    instance.designation := Get(input.designation, instance.designation);
    instance.phoneNumber := Get(input.phoneNumber, instance.phoneNumber);
    instance.isActive := Get(input.isActive, instance.isActive);
    assert instance.Fields() == Updated(before, input).(password := before.password);
    var password := input.password;
    if password.Some? && password.value != "" {
      instance.SetPassword(password.value);
    }
    instance.Save();
    r := instance;
  }
}
