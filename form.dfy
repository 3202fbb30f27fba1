/** The checks `index()` applies to the posted form before anything is
    submitted (app.py 379-390). */
module Form {
  import opened Text

  /** The prospect data handed to the driver: fields already stripped. */
  datatype Prospect = Prospect(fullName: string, phone: string, zip: string)

  /** Either the prospect to submit, or the message flashed to the user. */
  datatype Validation = Accepted(prospect: Prospect) | Rejected(message: string)

  const MissingFieldsMessage: string := "All fields (Full Name, Phone, Zip Code) are required."
  const FullNameMessage: string := "Please enter both first and last name in Full Name."

  /** Strips the three fields, requires all of them non-empty, then requires
      a space in the full name. A missing form field arrives as "". */
  function Validate(fullName: string, phone: string, zipCode: string): Validation
  {
    var name, ph, zip := Strip(fullName), Strip(phone), Strip(zipCode);
    if name == [] || ph == [] || zip == [] then Rejected(MissingFieldsMessage)
    else if ' ' !in name then Rejected(FullNameMessage)
    else Accepted(Prospect(name, ph, zip))
  }

  /** The verdict in terms of the raw input: a field made only of white
      space counts as missing; the name check comes second. */
  lemma ValidateCases(fullName: string, phone: string, zipCode: string)
    ensures Validate(fullName, phone, zipCode) == Rejected(MissingFieldsMessage) <==>
              AllSpace(fullName) || AllSpace(phone) || AllSpace(zipCode)
    ensures Validate(fullName, phone, zipCode) == Rejected(FullNameMessage) <==>
              !AllSpace(fullName) && !AllSpace(phone) && !AllSpace(zipCode) && ' ' !in Strip(fullName)
    ensures Validate(fullName, phone, zipCode).Accepted? <==>
              !AllSpace(fullName) && !AllSpace(phone) && !AllSpace(zipCode) && ' ' in Strip(fullName)
  {
    StripEmptyIff(fullName);
    StripEmptyIff(phone);
    StripEmptyIff(zipCode);
  }

  /** An accepted prospect has fields that stripping leaves unchanged. */
  lemma AcceptedIsStripped(fullName: string, phone: string, zipCode: string)
    requires Validate(fullName, phone, zipCode).Accepted?
    ensures var p := Validate(fullName, phone, zipCode).prospect;
            Strip(p.fullName) == p.fullName && Strip(p.phone) == p.phone && Strip(p.zip) == p.zip
  {
    var p := Validate(fullName, phone, zipCode).prospect;
    assert p == Prospect(Strip(fullName), Strip(phone), Strip(zipCode));
    StripIdempotent(fullName);
    StripIdempotent(phone);
    StripIdempotent(zipCode);
  }

  /** An accepted full name splits at some space into a non-empty first part
      and a non-empty last part. */
  lemma AcceptedNameHasTwoParts(fullName: string, phone: string, zipCode: string) returns (i: nat)
    requires Validate(fullName, phone, zipCode).Accepted?
    ensures var name := Validate(fullName, phone, zipCode).prospect.fullName;
            0 < i < |name| - 1 && name[i] == ' '
  {
    var name := Strip(fullName);
    assert Validate(fullName, phone, zipCode).prospect.fullName == name;
    StripEnds(fullName);
    assert ' ' in name;
    i :| 0 <= i < |name| && name[i] == ' ';
    assert IsSpace(name[i]);
    assert i != 0 && i != |name| - 1;
  }
}
