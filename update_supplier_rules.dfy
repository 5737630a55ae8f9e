/** The field rules of a supplier-data update: every field optional, a
    present phone must match `^\+380\d{9}$`, the other fields only have to
    be strings. */
module UpdateSupplierRules {
  import opened Common
  import opened CreateSupplyRules

  datatype UpdateSupplierDto = UpdateSupplierDto(
    supplierName: Option<string>,
    supplierEmail: Option<string>,
    supplierPhone: Option<string>,
    supplierAddress: Option<string>)

  /** `^\+380\d{9}$`: the Ukrainian prefix and nine digits. */
  predicate IsUpdatePhone(s: string) {
    |s| == 13 && s[..4] == "+380" && AllDigits(s[4..])
  }

  predicate ValidUpdateSupplier(d: UpdateSupplierDto) {
    d.supplierPhone.Some? ==> IsUpdatePhone(d.supplierPhone.value)
  }

  /** An update that sets nothing is valid. */
  lemma EmptyUpdateIsValid()
    ensures ValidUpdateSupplier(UpdateSupplierDto(None, None, None, None))
  {
  }

  /** Every phone the update rule accepts, the creation rule accepts too. */
  lemma UpdatePhoneIsCreatePhone(s: string)
    requires IsUpdatePhone(s)
    ensures IsCreatePhone(s)
  {
  }

  /** The inclusion is strict: a twelve-digit number outside +380 is
      accepted at creation and rejected on update. */
  lemma CreatePhoneNeedNotBeUpdatePhone()
    ensures IsCreatePhone("+123456789012") && !IsUpdatePhone("+123456789012")
  {
    var s := "+123456789012";
    assert s[1] == '1';
    assert s[..4][1] == s[1];
    assert s[..4] != "+380";
  }

  /** A present e-mail carries no format rule on update: whatever string
      it holds, the update's validity is that of the rest of the request,
      so an address the creation rule rejects gets through. */
  lemma UpdateEmailIsUnchecked(d: UpdateSupplierDto, email: string)
    ensures ValidUpdateSupplier(d.(supplierEmail := Some(email))) == ValidUpdateSupplier(d)
    ensures ValidUpdateSupplier(UpdateSupplierDto(None, Some("a@b.c.d"), None, None))
    ensures !IsEmail("a@b.c.d")
  {
    DottedDomainIsRejected();
  }
}
