/** The persisted state of the bill maker: business profile, client, invoice
    with its line items, and the Pro-unlock flag with its license key.

    Numeric fields hold whatever the editor or an imported document put there;
    the calculator reads them through `Norm`, which is the app's
    `Number(x || 0)` coercion made explicit. */
module InvoiceData {

  /** A numeric field as stored: absent (undefined, null, empty), a number, or NaN. */
  datatype Field = Missing | Num(value: real) | NaN

  /** `Number(x || 0)`: every falsy value (absent, NaN, 0) reads as 0. */
  function Norm(x: Field): (r: real)
    ensures x.Num? ==> r == x.value
    ensures !x.Num? ==> r == 0.0
  {
    match x
    case Num(v) => v
    case _ => 0.0
  }

  datatype Item = Item(id: string, name: string, hsn: string, qty: Field, price: Field, gst: Field)

  datatype Profile = Profile(
    bizName: string, owner: string, phone: string, email: string,
    address: string, gstin: string, state: string, logo: string)

  datatype Client = Client(
    name: string, phone: string, email: string, address: string,
    gstin: string, state: string)

  datatype Invoice = Invoice(
    number: string, date: string, due: string, placeOfSupply: string,
    interState: bool, notes: string, terms: string, items: seq<Item>,
    shipping: Field, discount: Field)

  datatype AppData = AppData(
    profile: Profile, client: Client, invoice: Invoice,
    proUnlocked: bool, licenseKey: string)

  /** The text-valued leaves that the editor addresses by a dotted path. */
  datatype TextField =
    | LicenseKey
    | ProfileBizName | ProfileOwner | ProfilePhone | ProfileEmail
    | ProfileAddress | ProfileGstin | ProfileState | ProfileLogo
    | ClientName | ClientPhone | ClientEmail | ClientAddress | ClientGstin | ClientState
    | InvoiceNumber | InvoiceDate | InvoiceDue | InvoicePlaceOfSupply | InvoiceNotes | InvoiceTerms

  /** The numeric leaves that the editor addresses by a dotted path. */
  datatype AmountField = InvoiceDiscount | InvoiceShipping

  function GetText(d: AppData, f: TextField): string
  {
    match f
    case LicenseKey => d.licenseKey
    case ProfileBizName => d.profile.bizName
    case ProfileOwner => d.profile.owner
    case ProfilePhone => d.profile.phone
    case ProfileEmail => d.profile.email
    case ProfileAddress => d.profile.address
    case ProfileGstin => d.profile.gstin
    case ProfileState => d.profile.state
    case ProfileLogo => d.profile.logo
    case ClientName => d.client.name
    case ClientPhone => d.client.phone
    case ClientEmail => d.client.email
    case ClientAddress => d.client.address
    case ClientGstin => d.client.gstin
    case ClientState => d.client.state
    case InvoiceNumber => d.invoice.number
    case InvoiceDate => d.invoice.date
    case InvoiceDue => d.invoice.due
    case InvoicePlaceOfSupply => d.invoice.placeOfSupply
    case InvoiceNotes => d.invoice.notes
    case InvoiceTerms => d.invoice.terms
  }

  function GetAmount(d: AppData, f: AmountField): Field
  {
    match f
    case InvoiceDiscount => d.invoice.discount
    case InvoiceShipping => d.invoice.shipping
  }

  /** Assigns one text leaf; the field named is the only one that changes. */
  function WithText(d: AppData, f: TextField, v: string): (r: AppData)
    ensures GetText(r, f) == v
    ensures forall g :: g != f ==> GetText(r, g) == GetText(d, g)
    ensures forall a :: GetAmount(r, a) == GetAmount(d, a)
    ensures r.invoice.interState == d.invoice.interState
    ensures r.invoice.items == d.invoice.items
    ensures r.proUnlocked == d.proUnlocked
  {
    match f
    case LicenseKey => d.(licenseKey := v)
    case ProfileBizName => d.(profile := d.profile.(bizName := v))
    case ProfileOwner => d.(profile := d.profile.(owner := v))
    case ProfilePhone => d.(profile := d.profile.(phone := v))
    case ProfileEmail => d.(profile := d.profile.(email := v))
    case ProfileAddress => d.(profile := d.profile.(address := v))
    case ProfileGstin => d.(profile := d.profile.(gstin := v))
    case ProfileState => d.(profile := d.profile.(state := v))
    case ProfileLogo => d.(profile := d.profile.(logo := v))
    case ClientName => d.(client := d.client.(name := v))
    case ClientPhone => d.(client := d.client.(phone := v))
    case ClientEmail => d.(client := d.client.(email := v))
    case ClientAddress => d.(client := d.client.(address := v))
    case ClientGstin => d.(client := d.client.(gstin := v))
    case ClientState => d.(client := d.client.(state := v))
    case InvoiceNumber => d.(invoice := d.invoice.(number := v))
    case InvoiceDate => d.(invoice := d.invoice.(date := v))
    case InvoiceDue => d.(invoice := d.invoice.(due := v))
    case InvoicePlaceOfSupply => d.(invoice := d.invoice.(placeOfSupply := v))
    case InvoiceNotes => d.(invoice := d.invoice.(notes := v))
    case InvoiceTerms => d.(invoice := d.invoice.(terms := v))
  }

  /** Assigns one numeric leaf; the field named is the only one that changes. */
  function WithAmount(d: AppData, f: AmountField, v: Field): (r: AppData)
    ensures GetAmount(r, f) == v
    ensures forall a :: a != f ==> GetAmount(r, a) == GetAmount(d, a)
    ensures forall g :: GetText(r, g) == GetText(d, g)
    ensures r.invoice.interState == d.invoice.interState
    ensures r.invoice.items == d.invoice.items
    ensures r.proUnlocked == d.proUnlocked
  {
    match f
    case InvoiceDiscount => d.(invoice := d.invoice.(discount := v))
    case InvoiceShipping => d.(invoice := d.invoice.(shipping := v))
  }

  /** Two states agree on every leaf exactly when they are equal, so the
      getters above describe a state completely. */
  lemma {:induction false} SameLeavesSameData(d: AppData, e: AppData)
    requires forall g :: GetText(d, g) == GetText(e, g)
    requires forall a :: GetAmount(d, a) == GetAmount(e, a)
    requires d.invoice.interState == e.invoice.interState
    requires d.invoice.items == e.invoice.items
    requires d.proUnlocked == e.proUnlocked
    ensures d == e
  {
    SameProfile(d, e);
    SameClient(d, e);
    SameInvoice(d, e);
    assert GetText(d, LicenseKey) == GetText(e, LicenseKey);
  }

  lemma {:induction false} SameProfile(d: AppData, e: AppData)
    requires forall g :: GetText(d, g) == GetText(e, g)
    ensures d.profile == e.profile
  {
    assert GetText(d, ProfileBizName) == GetText(e, ProfileBizName);
    assert GetText(d, ProfileOwner) == GetText(e, ProfileOwner);
    assert GetText(d, ProfilePhone) == GetText(e, ProfilePhone);
    assert GetText(d, ProfileEmail) == GetText(e, ProfileEmail);
    assert GetText(d, ProfileAddress) == GetText(e, ProfileAddress);
    assert GetText(d, ProfileGstin) == GetText(e, ProfileGstin);
    assert GetText(d, ProfileState) == GetText(e, ProfileState);
    assert GetText(d, ProfileLogo) == GetText(e, ProfileLogo);
  }

  lemma {:induction false} SameClient(d: AppData, e: AppData)
    requires forall g :: GetText(d, g) == GetText(e, g)
    ensures d.client == e.client
  {
    assert GetText(d, ClientName) == GetText(e, ClientName);
    assert GetText(d, ClientPhone) == GetText(e, ClientPhone);
    assert GetText(d, ClientEmail) == GetText(e, ClientEmail);
    assert GetText(d, ClientAddress) == GetText(e, ClientAddress);
    assert GetText(d, ClientGstin) == GetText(e, ClientGstin);
    assert GetText(d, ClientState) == GetText(e, ClientState);
  }

  lemma {:induction false} SameInvoice(d: AppData, e: AppData)
    requires forall g :: GetText(d, g) == GetText(e, g)
    requires forall a :: GetAmount(d, a) == GetAmount(e, a)
    requires d.invoice.interState == e.invoice.interState
    requires d.invoice.items == e.invoice.items
    ensures d.invoice == e.invoice
  {
    assert GetText(d, InvoiceNumber) == GetText(e, InvoiceNumber);
    assert GetText(d, InvoiceDate) == GetText(e, InvoiceDate);
    assert GetText(d, InvoiceDue) == GetText(e, InvoiceDue);
    assert GetText(d, InvoicePlaceOfSupply) == GetText(e, InvoicePlaceOfSupply);
    assert GetText(d, InvoiceNotes) == GetText(e, InvoiceNotes);
    assert GetText(d, InvoiceTerms) == GetText(e, InvoiceTerms);
    assert GetAmount(d, InvoiceDiscount) == GetAmount(e, InvoiceDiscount);
    assert GetAmount(d, InvoiceShipping) == GetAmount(e, InvoiceShipping);
  }

  /** The one demo line item; its id comes from the random id generator. */
  function DemoItem(id: string): Item
  {
    Item(id, "Driveway Sealcoating", "9954", Num(1.0), Num(2500.0), Num(18.0))
  }

  /** The state the app starts from when nothing is stored; `today` is the
      ISO date the clock supplies. */
  function DefaultData(today: string, demoId: string): (d: AppData)
    ensures d.invoice.interState == (d.profile.state != d.client.state)
    ensures d.invoice.placeOfSupply == d.client.state
    ensures !d.proUnlocked && d.licenseKey == ""
  {
    AppData(
      Profile("Your Business Name", "Owner Name", "", "", "", "", "Rajasthan", ""),
      Client("Client Name", "", "", "", "", "Rajasthan"),
      Invoice("INV-1001", today, "", "Rajasthan", false,
              "Thank you for your business.", "Payment due upon receipt.",
              [DemoItem(demoId)], Num(0.0), Num(0.0)),
      false, "")
  }
}
