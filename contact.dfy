/**
 * The contact form (src/pages/contact.tsx): three text fields, a loading
 * flag and a status message, driven by the change handler and by the two
 * halves of the asynchronous submit handler. Whether the send succeeded is a
 * parameter: the code as written only waits on a timer, so its error branch is
 * reachable only through a failing send.
 */
module Contact {
  import opened Common

  /** The three inputs, by their `name` attribute. */
  datatype Field = Name | Email | Message

  /** `formData`. */
  datatype FormData = FormData(name: string, email: string, message: string)
  {
    function Get(f: Field): string
    {
      match f
      case Name => name
      case Email => email
      case Message => message
    }

    /** `{ ...prev, [name]: value }`: field `f` becomes `value`, the other two stay as they were. */
    function With(f: Field, value: string): (r: FormData)
      ensures r.Get(f) == value
      ensures forall g :: g != f ==> r.Get(g) == Get(g)
    {
      match f
      case Name => this.(name := value)
      case Email => this.(email := value)
      case Message => this.(message := value)
    }
  }

  /** The form as first rendered and as reset after a successful send. */
  const EmptyForm: FormData := FormData("", "", "")

  /** The kind of the status message; its text is the translation of `MessageKey`. */
  datatype StatusKind = Success | Error
  {
    function MessageKey(): (key: string)
      ensures key == "contact.form.success" <==> this == Success
      ensures key == "contact.form.error" <==> this == Error
    {
      match this
      case Success => "contact.form.success"
      case Error => "contact.form.error"
    }
  }

  class ContactForm {
    var formData: FormData
    var isLoading: bool
    var status: Option<StatusKind>

    /** All fields empty, not loading, no status. */
    constructor ()
      ensures formData == EmptyForm && !isLoading && status == None
    {
      formData := EmptyForm;
      isLoading := false;
      status := None;
    }

    /** The submit button is disabled while a send is in flight. */
    predicate CanSubmit()
      reads this
    {
      !isLoading
    }

    /** `handleChange`: only the named field changes. */
    method HandleChange(f: Field, value: string)
      modifies this
      ensures formData == old(formData).With(f, value)
      ensures isLoading == old(isLoading) && status == old(status)
    {
      formData := formData.With(f, value);
    }

    /** The start of `handleSubmit`: loading, and any earlier status cleared; the fields are untouched. */
    method BeginSubmit()
      requires CanSubmit()
      modifies this
      ensures isLoading && status == None
      ensures formData == old(formData)
    {
      isLoading := true;
      status := None;
    }

    /**
     * The end of `handleSubmit`: on success the status is Success and the
     * fields are reset; on failure the status is Error and the fields are
     * kept (including anything typed while the send was in flight). Either
     * way the `finally` clears the loading flag.
     */
    method FinishSubmit(sent: bool)
      requires isLoading
      modifies this
      ensures !isLoading
      ensures sent ==> status == Some(Success) && formData == EmptyForm
      ensures !sent ==> status == Some(Error) && formData == old(formData)
    {
      if sent {
        status := Some(Success);
        formData := EmptyForm;
      } else {
        status := Some(Error);
      }
      isLoading := false;
    }
  }
}
