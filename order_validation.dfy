/**
 * The data annotations on the Order record, as the validation that Entity
 * Framework runs when an order is saved: `[Required]` rejects a null, empty or
 * all-white-space value, `[StringLength(n)]` rejects a value longer than `n`
 * UTF-16 code units and lets a null through.
 */
module OrderValidation {
  import opened Entities

  /** The annotated columns of Order. */
  datatype Field = FirstName | LastName | Line1 | City | PostalCode | Country | Phone

  datatype FieldError =
    | Missing(field: Field, message: string)   // [Required] failed
    | TooLong(field: Field, maxLength: nat)    // [StringLength] failed

  function Value(o: Order, f: Field): Option<string>
  {
    match f
    case FirstName => o.firstName
    case LastName => o.lastName
    case Line1 => o.line1
    case City => o.city
    case PostalCode => o.postalCode
    case Country => o.country
    case Phone => o.phone
  }

  function MaxLength(f: Field): nat
  {
    match f
    case FirstName => 160
    case LastName => 160
    case Line1 => 70
    case City => 40
    case PostalCode => 10
    case Country => 40
    case Phone => 11
  }

  function RequiredMessage(f: Field): string
  {
    match f
    case FirstName => "First Name is required"
    case LastName => "Last Name is required"
    case Line1 => "Line1 is required"
    case City => "City is required"
    case PostalCode => "Postal Code is required"
    case Country => "Country is required"
    case Phone => "Phone is required"
  }

  predicate Present(s: Option<string>)
  {
    !IsNullOrWhiteSpace(s)
  }

  /** `[StringLength(n)]`: at most `n` UTF-16 code units, or null. */
  predicate FitsIn(s: Option<string>, n: nat)
  {
    s.None? || Utf16Length(s.value) <= n
  }

  /** The order passes every annotation on its columns. */
  predicate IsValid(o: Order)
  {
    && Present(o.firstName) && FitsIn(o.firstName, 160)
    && Present(o.lastName) && FitsIn(o.lastName, 160)
    && Present(o.line1) && FitsIn(o.line1, 70)
    && Present(o.city) && FitsIn(o.city, 40)
    && Present(o.postalCode) && FitsIn(o.postalCode, 10)
    && Present(o.country) && FitsIn(o.country, 40)
    && Present(o.phone) && FitsIn(o.phone, 11)
  }

  function FieldErrors(o: Order, f: Field): (es: seq<FieldError>)
    ensures forall e :: e in es ==> e.field == f
    ensures es == [] <==> Present(Value(o, f)) && FitsIn(Value(o, f), MaxLength(f))
    ensures forall e :: e in es && e.Missing? ==> IsNullOrWhiteSpace(Value(o, f))
    ensures forall e :: e in es && e.TooLong? ==>
      e.maxLength == MaxLength(f) && Value(o, f).Some? && Utf16Length(Value(o, f).value) > e.maxLength
  {
    var v := Value(o, f);
    (if Present(v) then [] else [Missing(f, RequiredMessage(f))])
    + (if FitsIn(v, MaxLength(f)) then [] else [TooLong(f, MaxLength(f))])
  }

  /** The annotated columns, in declaration order. */
  const AnnotatedFields: seq<Field> := [FirstName, LastName, Line1, City, PostalCode, Country, Phone]

  predicate FieldOk(o: Order, f: Field)
  {
    Present(Value(o, f)) && FitsIn(Value(o, f), MaxLength(f))
  }

  /** The validation errors of the columns `fs`, column by column. */
  function ErrorsOf(o: Order, fs: seq<Field>): (es: seq<FieldError>)
    ensures es == [] <==> forall i :: 0 <= i < |fs| ==> FieldOk(o, fs[i])
    ensures forall e :: e in es ==> e.field in fs
    ensures forall e :: e in es && e.Missing? ==> IsNullOrWhiteSpace(Value(o, e.field))
    ensures forall e :: e in es && e.TooLong? ==>
      e.maxLength == MaxLength(e.field) && Value(o, e.field).Some? && Utf16Length(Value(o, e.field).value) > e.maxLength
  {
    if fs == [] then []
    else
      var head := FieldErrors(o, fs[0]);
      assert forall e :: e in head ==> e.field == fs[0];
      head + ErrorsOf(o, fs[1..])
  }

  /** The validation errors of an order; none exactly when the order is valid. */
  function Errors(o: Order): (es: seq<FieldError>)
    ensures es == [] <==> IsValid(o)
    ensures forall e :: e in es && e.Missing? ==> IsNullOrWhiteSpace(Value(o, e.field))
    ensures forall e :: e in es && e.TooLong? ==>
      e.maxLength == MaxLength(e.field) && Value(o, e.field).Some? && Utf16Length(Value(o, e.field).value) > e.maxLength
  {
    var es := ErrorsOf(o, AnnotatedFields);
    assert IsValid(o) <==> forall i :: 0 <= i < |AnnotatedFields| ==> FieldOk(o, AnnotatedFields[i]) by {
      if forall i :: 0 <= i < |AnnotatedFields| ==> FieldOk(o, AnnotatedFields[i]) {
        assert FieldOk(o, AnnotatedFields[0]) && FieldOk(o, AnnotatedFields[1]) && FieldOk(o, AnnotatedFields[2]);
        assert FieldOk(o, AnnotatedFields[3]) && FieldOk(o, AnnotatedFields[4]) && FieldOk(o, AnnotatedFields[5]);
        assert FieldOk(o, AnnotatedFields[6]);
      }
    }
    es
  }

  /** Line2, Email, OrderDate, OrderTotal, CustomerId and TransactionID carry no annotation. */
  lemma UnannotatedColumns(o: Order, line2: Option<string>, email: Option<string>, date: Time,
                           total: Money, customer: Option<string>, transaction: Option<string>)
    ensures var o' := o.(line2 := line2, email := email, orderDate := date, orderTotal := total,
                         customerId := customer, transactionId := transaction);
            IsValid(o') <==> IsValid(o)
  {
  }
}
