/**
 * The profile form (components/ProfilePage.tsx): a draft copy of the user
 * that the inputs edit field by field while edit mode is on, and that is
 * either handed to the parent on save or thrown away on cancel.
 */
module Profile {
  import opened Types

  /** The text inputs, by their `name` attribute. */
  datatype Field = Name | Email | Phone
  /** The size selects, by their `name` attribute. */
  datatype SizeField = Tops | Denims | Dresses

  const TopsOptions: seq<string> := ["XS", "S", "M", "L", "XL", "XXL"]
  const DenimsOptions: seq<string> := ["28", "29", "30", "31", "32", "33", "34", "36", "38"]
  const DressesOptions: seq<string> := ["US 2", "US 4", "US 6", "US 8", "US 10", "US 12", "US 14"]

  function Get(u: User, f: Field): string {
    match f
    case Name => u.name
    case Email => u.email
    case Phone => u.phone
  }

  function GetSize(s: Sizes, f: SizeField): string {
    match f
    case Tops => s.tops
    case Denims => s.denims
    case Dresses => s.dresses
  }

  /** `{ ...prev, [name]: value }`: only the named field changes. */
  function SetField(u: User, f: Field, v: string): (r: User)
    ensures Get(r, f) == v
    ensures forall g :: g != f ==> Get(r, g) == Get(u, g)
    ensures r.avatarUrl == u.avatarUrl && r.sizes == u.sizes
  {
    match f
    case Name => u.(name := v)
    case Email => u.(email := v)
    case Phone => u.(phone := v)
  }

  /** `{ ...prev, sizes: { ...prev.sizes, [name]: value } }`: only the named size changes. */
  function SetSize(u: User, f: SizeField, v: string): (r: User)
    ensures GetSize(r.sizes, f) == v
    ensures forall g :: g != f ==> GetSize(r.sizes, g) == GetSize(u.sizes, g)
    ensures forall g :: Get(r, g) == Get(u, g)
    ensures r.avatarUrl == u.avatarUrl
  {
    match f
    case Tops => u.(sizes := u.sizes.(tops := v))
    case Denims => u.(sizes := u.sizes.(denims := v))
    case Dresses => u.(sizes := u.sizes.(dresses := v))
  }

  /** Writing a field its current value leaves the draft as it was. */
  lemma SetFieldOfGet(u: User, f: Field)
    ensures SetField(u, f, Get(u, f)) == u
  {
  }

  /** Edits of different fields commute. */
  lemma SetFieldCommutes(u: User, f: Field, v: string, g: Field, w: string)
    requires f != g
    ensures SetField(SetField(u, f, v), g, w) == SetField(SetField(u, g, w), f, v)
  {
  }

  /** One change event of the form. */
  datatype Edit = Change(field: Field, value: string) | ChangeSize(size: SizeField, value: string)

  /** The draft after a sequence of change events, oldest first. */
  function Apply(u: User, edits: seq<Edit>): User {
    if edits == [] then u
    else
      var prev := Apply(u, edits[..|edits| - 1]);
      match edits[|edits| - 1]
      case Change(f, v) => SetField(prev, f, v)
      case ChangeSize(f, v) => SetSize(prev, f, v)
  }

  /** The value the latest change of field `f` wrote, if any. */
  function LastWrite(edits: seq<Edit>, f: Field): Option<string> {
    if edits == [] then None
    else
      var e := edits[|edits| - 1];
      if e.Change? && e.field == f then Some(e.value) else LastWrite(edits[..|edits| - 1], f)
  }

  /** After any edits a field holds the value last typed into it, or its original value. */
  lemma {:induction false} ApplyLastWins(u: User, edits: seq<Edit>, f: Field)
    ensures Get(Apply(u, edits), f) ==
      match LastWrite(edits, f) case Some(v) => v case None => Get(u, f)
  {
    if edits != [] {
      ApplyLastWins(u, edits[..|edits| - 1], f);
    }
  }

  /** No edit reaches the avatar: the form has no input for it. */
  lemma {:induction false} ApplyKeepsAvatar(u: User, edits: seq<Edit>)
    ensures Apply(u, edits).avatarUrl == u.avatarUrl
  {
    if edits != [] {
      ApplyKeepsAvatar(u, edits[..|edits| - 1]);
    }
  }

  class ProfilePage {
    /** The `user` prop. */
    var user: User
    var isEditing: bool
    var formData: User
    /** The profiles passed to `onUpdateProfile`, in order. */
    var updates: seq<User>

    constructor(user: User)
      ensures this.user == user && formData == user && !isEditing && updates == []
    {
      this.user := user;
      isEditing := false;
      formData := user;
      updates := [];
    }

    /** A new `user` prop: the effect resets the draft to it. */
    method UserChanged(u: User)
      modifies this
      ensures user == u && formData == u
      ensures isEditing == old(isEditing) && updates == old(updates)
    {
      user := u;
      formData := u;
    }

    /** The "Edit Profile" button, rendered only outside edit mode. */
    method StartEditing()
      modifies this
      ensures isEditing
      ensures user == old(user) && formData == old(formData) && updates == old(updates)
    {
      isEditing := true;
    }

    /** `handleChange`; a disabled input (outside edit mode) fires no change. */
    method HandleChange(f: Field, v: string)
      modifies this
      ensures formData == if old(isEditing) then SetField(old(formData), f, v) else old(formData)
      ensures user == old(user) && isEditing == old(isEditing) && updates == old(updates)
    {
      if isEditing {
        formData := SetField(formData, f, v);
      }
    }

    /** `handleSizeChange`; a disabled select fires no change. */
    method HandleSizeChange(f: SizeField, v: string)
      modifies this
      ensures formData == if old(isEditing) then SetSize(old(formData), f, v) else old(formData)
      ensures user == old(user) && isEditing == old(isEditing) && updates == old(updates)
    {
      if isEditing {
        formData := SetSize(formData, f, v);
      }
    }

    /** A sequence of change events, one handler call each. */
    method HandleEdits(edits: seq<Edit>)
      requires isEditing
      modifies this
      ensures formData == Apply(old(formData), edits)
      ensures user == old(user) && isEditing && updates == old(updates)
    {
      ghost var start := formData;
      for i := 0 to |edits|
        invariant formData == Apply(start, edits[..i])
        invariant user == old(user) && isEditing && updates == old(updates)
      {
        assert edits[..i + 1][..i] == edits[..i];
        match edits[i] {
          case Change(f, v) => HandleChange(f, v);
          case ChangeSize(f, v) => HandleSizeChange(f, v);
        }
      }
      assert edits[..|edits|] == edits;
    }

    /** `handleSave`, behind the Save button shown only in edit mode: the draft goes to the parent. */
    method HandleSave()
      modifies this
      ensures old(isEditing) ==> updates == old(updates) + [old(formData)] && !isEditing
      ensures !old(isEditing) ==> updates == old(updates) && isEditing == old(isEditing)
      ensures user == old(user) && formData == old(formData)
    {
      if isEditing {
        updates := updates + [formData];
        isEditing := false;
      }
    }

    /** `handleCancel`, behind the Cancel button: the draft is discarded. */
    method HandleCancel()
      modifies this
      ensures old(isEditing) ==> formData == user && !isEditing
      ensures !old(isEditing) ==> formData == old(formData) && isEditing == old(isEditing)
      ensures user == old(user) && updates == old(updates)
    {
      if isEditing {
        formData := user;
        isEditing := false;
      }
    }
  }
}
