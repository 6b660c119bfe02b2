/** validateForm of the create-customer form: an ordered chain of checks whose first
    failure gives the message, and the empty string when every check passes. */
module CreateCustomerForm {
  import opened FormPatterns

  const NAME_MESSAGE: string := "Name must contain only alphabets and spaces."

  function ValidateForm(f: CustomerFields): (r: string)
    ensures r == "" <==> Acceptable(f)
    ensures r == REQUIRED_MESSAGE <==> !AllPresent(f)
    ensures r == NAME_MESSAGE <==> AllPresent(f) && !ValidName(f.name)
    ensures r == EMAIL_MESSAGE <==> AllPresent(f) && ValidName(f.name) && !EmailPattern(f.email)
    ensures r == PHONE_MESSAGE <==>
      AllPresent(f) && ValidName(f.name) && EmailPattern(f.email) && !ValidPhone(f.phone)
  {
    MatchEmailCorrect(f.email);
    if !AllPresent(f) then REQUIRED_MESSAGE
    else if !ValidName(f.name) then NAME_MESSAGE
    else if !MatchEmail(f.email) then EMAIL_MESSAGE
    else if !ValidPhone(f.phone) then PHONE_MESSAGE
    else ""
  }

  /** The date of birth is only required to be present: its content never changes the verdict. */
  lemma DateOfBirthOnlyPresence(f: CustomerFields, dateOfBirth: string)
    requires f.dateOfBirth != "" && dateOfBirth != ""
    ensures ValidateForm(f.(dateOfBirth := dateOfBirth)) == ValidateForm(f)
  {
  }
}
