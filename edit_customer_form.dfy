/** validateForm of the edit-customer form: the same chain of checks as the create form,
    with a different wording of the name message. */
module EditCustomerForm {
  import opened FormPatterns
  import CreateCustomerForm

  const NAME_MESSAGE: string := "Name must contain only alphabets."

  function ValidateForm(f: CustomerFields): (r: string)
    ensures r == "" <==> Acceptable(f)
    ensures r == REQUIRED_MESSAGE <==> !AllPresent(f)
    ensures r == NAME_MESSAGE <==> AllPresent(f) && !ValidName(f.name)
    ensures r == EMAIL_MESSAGE <==> AllPresent(f) && ValidName(f.name) && !EmailPattern(f.email)
    ensures r == PHONE_MESSAGE <==>
      AllPresent(f) && ValidName(f.name) && EmailPattern(f.email) && !ValidPhone(f.phone)
  {
    MatchEmailCorrect(f.email);
    if !AllPresent(f) then REQUIRED_MESSAGE
    else if !ValidName(f.name) then NAME_MESSAGE
    else if !MatchEmail(f.email) then EMAIL_MESSAGE
    else if !ValidPhone(f.phone) then PHONE_MESSAGE
    else ""
  }

  /** The two forms accept the same inputs and give the same message, except that the
      name message is worded differently. */
  lemma AgreesWithCreateForm(f: CustomerFields)
    ensures ValidateForm(f) == "" <==> CreateCustomerForm.ValidateForm(f) == ""
    ensures ValidateForm(f) == NAME_MESSAGE <==> CreateCustomerForm.ValidateForm(f) == CreateCustomerForm.NAME_MESSAGE
    ensures ValidateForm(f) != NAME_MESSAGE ==> ValidateForm(f) == CreateCustomerForm.ValidateForm(f)
  {
  }
}
