/** The authentication hook (`useAuth`): the application's view of the
    signed-in user of the identity provider, and the name split used when
    the profile is updated. The provider's user object is an input. */
module AuthStore {
  import opened Wrappers
  import opened Text

  /** The provider's user as the hook reads it; `primaryEmail` is
      `primaryEmailAddress?.emailAddress`. */
  datatype ClerkUser = ClerkUser(
    id: string,
    primaryEmail: Option<string>,
    fullName: Option<string>,
    firstName: Option<string>,
    username: Option<string>)

  /** The application's `User` (its `createdAt` is not modelled). */
  datatype User = User(id: string, email: string, name: string)

  /** The name change `updateProfile` sends to the provider. */
  datatype NameUpdate = NameUpdate(firstName: string, lastName: string)

  /** The first truthy name among full name, first name and username, else `""`. */
  function DisplayName(u: ClerkUser): (r: string)
    ensures Truthy(u.fullName) ==> r == u.fullName.value
    ensures !Truthy(u.fullName) && Truthy(u.firstName) ==> r == u.firstName.value
    ensures !Truthy(u.fullName) && !Truthy(u.firstName) ==> r == OrElse(u.username, "")
  {
    OrElse(u.fullName, OrElse(u.firstName, OrElse(u.username, "")))
  }

  /** The projected user: `null` exactly when there is no provider user. */
  function ProjectUser(clerkUser: Option<ClerkUser>): (r: Option<User>)
    ensures r.None? <==> clerkUser.None?
    ensures r.Some? ==> r.value.id == clerkUser.value.id
    ensures r.Some? ==> r.value.email == OrElse(clerkUser.value.primaryEmail, "")
    ensures r.Some? ==> r.value.name == DisplayName(clerkUser.value)
  {
    match clerkUser
    case None => None
    case Some(u) => Some(User(u.id, OrElse(u.primaryEmail, ""), DisplayName(u)))
  }

  /** `isLoaded && !!clerkUser`. */
  function IsAuthenticated(isLoaded: bool, clerkUser: Option<ClerkUser>): (r: bool)
    ensures r <==> isLoaded && clerkUser.Some?
  {
    isLoaded && clerkUser.Some?
  }

  /** The pieces of `name.split(" ")` in the three shapes a name can have:
      no space, a leading space, a space after a non-empty first word. */
  lemma SplitNamePieces(name: string)
    ensures ' ' !in name ==> Split(name, ' ') == [name]
    ensures |name| > 0 && name[0] == ' ' ==>
              Split(name, ' ')[0] == "" && Join(Split(name, ' ')[1..], " ") == name[1..]
    ensures ' ' in name && name[0] != ' ' ==>
              var parts := Split(name, ' ');
              |parts[0]| > 0 && parts[0] + " " + Join(parts[1..], " ") == name
  {
    var parts := Split(name, ' ');
    if ' ' !in name {
      SplitWithoutSeparator(name, ' ');
    } else if name[0] == ' ' {
      JoinSplit(name[1..], ' ');
      assert parts == [""] + Split(name[1..], ' ');
      assert parts[1..] == Split(name[1..], ' ');
    } else {
      SplitWithSeparator(name, ' ');
      JoinSplit(name, ' ');
      assert |parts[0]| > 0 by {
        var rest := Split(name[1..], ' ');
        assert parts[0] == [name[0]] + rest[0];
      }
      assert Join(parts, " ") == parts[0] + " " + Join(parts[1..], " ");
    }
  }

  /** `firstName: name.split(" ")[0] || name`,
      `lastName: name.split(" ").slice(1).join(" ") || ""`. A name without a
      space is all first name; a name that starts with a space has an empty
      first segment, so the whole name, space included, is the first name and
      the rest after that space the last name; otherwise the name splits at
      its first space. */
  function SplitName(name: string): (r: NameUpdate)
    ensures ' ' !in name ==> r == NameUpdate(name, "")
    ensures |name| > 0 && name[0] == ' ' ==> r.firstName == name && r.lastName == name[1..]
    ensures ' ' in name && name[0] != ' ' ==>
              ' ' !in r.firstName && r.firstName + " " + r.lastName == name
  {
    SplitNamePieces(name);
    var parts := Split(name, ' ');
    NameUpdate(if |parts[0]| == 0 then name else parts[0], Join(parts[1..], " "))
  }

  /** `updateProfile(name)`: the update sent to the provider, or none when
      nobody is signed in. */
  function UpdateProfile(clerkUser: Option<ClerkUser>, name: string): (r: Option<NameUpdate>)
    ensures r.None? <==> clerkUser.None?
    ensures r.Some? ==> r.value == SplitName(name)
  {
    if clerkUser.Some? then Some(SplitName(name)) else None
  }

  /** `login`: sign-in goes through the provider's own form, so this always fails. */
  function Login(email: string, password: string): (r: bool)
    ensures !r
  {
    false
  }

  /** `register`: sign-up goes through the provider's own form, so this always fails. */
  function Register(email: string, password: string, name: string): (r: bool)
    ensures !r
  {
    false
  }
}
