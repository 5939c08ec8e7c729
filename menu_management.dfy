/** The admin's menu page: the category filter, the add/edit form and its
    validation, and the requests it sends for saving, deleting and switching
    availability. The provider's item operations are not part of this
    model; each request is recorded with the outcome the store reports. */
module MenuManagement {
  import opened Types
  import opened Wrappers
  import opened Pricing
  import Seqs
  import CustomerMenu
  import AppContext

  /** The admin list under a tab: every item of the tab's category,
      available or not. */
  function AdminItems(menu: seq<MenuItem>, tab: CustomerMenu.Tab): (r: seq<MenuItem>)
    ensures tab.All? ==> r == menu
    ensures forall m :: m in r <==> m in menu && (tab.Only? ==> m.category == tab.category)
  {
    match tab
    case All => menu
    case Only(c) => Seqs.Filter(menu, (m: MenuItem) => m.category == c)
  }

  /** Customers see exactly the available part of what the admin sees under the same tab. */
  lemma CustomersSeeAvailableAdminItems(menu: seq<MenuItem>, tab: CustomerMenu.Tab, m: MenuItem)
    ensures m in CustomerMenu.VisibleItems(menu, tab) <==> m in AdminItems(menu, tab) && m.isAvailable
  {
  }

  /** The form's fields. */
  datatype FormData = FormData(
    name: string,
    description: string,
    price: real,
    category: Category,
    discount: Option<real>,
    isBestSeller: Option<bool>,
    isTodaysSpecial: Option<bool>,
    isAvailable: bool)

  /** The blank form: no name or description, price 0, tea, discount 0,
      neither flag set, available. */
  function BlankForm(): (f: FormData)
    ensures f.name == "" && f.description == "" && f.price == 0.0 && f.category == Tea && f.isAvailable
    ensures f.discount == Some(0.0) && !HasDiscount(f.discount)
    ensures f.isBestSeller == Some(false) && f.isTodaysSpecial == Some(false)
  {
    FormData("", "", 0.0, Tea, Some(0.0), Some(false), Some(false), true)
  }

  /** The form filled from an existing item. */
  function FormOf(item: MenuItem): (f: FormData)
    ensures f.name == item.name && f.description == item.description && f.price == item.price
    ensures f.category == item.category && f.discount == item.discount && f.isAvailable == item.isAvailable
    ensures f.isBestSeller == item.isBestSeller && f.isTodaysSpecial == item.isTodaysSpecial
  {
    FormData(item.name, item.description, item.price, item.category, item.discount,
             item.isBestSeller, item.isTodaysSpecial, item.isAvailable)
  }

  /** A number field's value: `parseFloat(...) || 0`, so an unreadable or
      zero entry is 0. `parsed` is what `parseFloat` gave, `None` for `NaN`. */
  function NumberOrZero(parsed: Option<real>): (r: real)
    ensures parsed.Some? ==> r == parsed.value
    ensures parsed.None? ==> r == 0.0
  {
    parsed.GetOr(0.0)
  }

  datatype SaveCheck = MissingFields | NoShop | Proceed

  /** The checks before saving: a name and a non-zero price, then a signed-in shop. */
  function CheckSave(form: FormData, hasShop: bool): (c: SaveCheck)
    ensures c == MissingFields <==> form.name == "" || form.price == 0.0
    ensures c == NoShop <==> form.name != "" && form.price != 0.0 && !hasShop
    ensures c == Proceed ==> hasShop
  {
    if form.name == "" || form.price == 0.0 then MissingFields
    else if !hasShop then NoShop
    else Proceed
  }

  /** Nothing but the zero price is refused: a negative price and a
      discount over 100 both pass. */
  lemma SaveLetsOddValuesThrough()
    ensures CheckSave(BlankForm().(name := "Tea", price := -5.0), true) == Proceed
    ensures CheckSave(BlankForm().(name := "Tea", price := 50.0, discount := Some(150.0)), true) == Proceed
    ensures CheckSave(BlankForm().(name := "Tea"), true) == MissingFields
  {
  }

  /** The fields sent when an item is saved. */
  datatype ItemFields = ItemFields(
    name: string,
    description: string,
    price: real,
    category: Category,
    discount: Option<real>,
    isBestSeller: Option<bool>,
    isTodaysSpecial: Option<bool>,
    isAvailable: bool)

  function FieldsOf(form: FormData): (f: ItemFields)
    ensures f.name == form.name && f.description == form.description && f.price == form.price
    ensures f.discount == form.discount && f.isAvailable == form.isAvailable && f.category == form.category
    ensures f.isBestSeller == form.isBestSeller && f.isTodaysSpecial == form.isTodaysSpecial
  {
    ItemFields(form.name, form.description, form.price, form.category, form.discount,
               form.isBestSeller, form.isTodaysSpecial, form.isAvailable)
  }

  /** A request the page sends to the store. */
  datatype MenuRequest =
    | AddItem(fields: ItemFields)
    | UpdateItem(id: string, fields: ItemFields)
    | SetAvailability(id: string, isAvailable: bool)
    | DeleteItem(id: string)

  /** Opening an item for editing and saving it unchanged sends every field
      the item has, apart from its id and image. */
  lemma EditUnchangedSendsItem(item: MenuItem)
    ensures var f := FieldsOf(FormOf(item));
      f.name == item.name && f.description == item.description && f.price == item.price
      && f.category == item.category && f.discount == item.discount
      && f.isBestSeller == item.isBestSeller && f.isTodaysSpecial == item.isTodaysSpecial
      && f.isAvailable == item.isAvailable
  {
  }

  /** A menu row holding the blank form's discount, 0, is read as an item
      without a discount, charged at full price. */
  lemma BlankDiscountReadsBackAbsent(row: AppContext.MenuRow)
    requires row.discount == BlankForm().discount
    ensures AppContext.RowToMenuItem(row).discount.None?
    ensures ItemPrice(AppContext.RowToMenuItem(row)) == row.price
  {
  }

  class MenuManagementPage {
    var activeTab: CustomerMenu.Tab
    var isDialogOpen: bool
    var editingItem: Option<MenuItem>
    var deleteConfirm: Option<string>
    var isSaving: bool
    var isDeleting: bool
    var form: FormData
    /** The requests sent, oldest first. */
    var requests: seq<MenuRequest>

    constructor ()
      ensures activeTab == CustomerMenu.All && !isDialogOpen && editingItem == None && deleteConfirm == None
      ensures !isSaving && !isDeleting && form == BlankForm() && requests == []
    {
      activeTab, isDialogOpen, editingItem, deleteConfirm := CustomerMenu.All, false, None, None;
      isSaving, isDeleting, form, requests := false, false, BlankForm(), [];
    }

    method OpenAddDialog()
      modifies this`editingItem, this`form, this`isDialogOpen
      ensures editingItem == None && form == BlankForm() && isDialogOpen
    {
      editingItem := None;
      form := BlankForm();
      isDialogOpen := true;
    }

    method OpenEditDialog(item: MenuItem)
      modifies this`editingItem, this`form, this`isDialogOpen
      ensures editingItem == Some(item) && form == FormOf(item) && isDialogOpen
    {
      editingItem := Some(item);
      form := FormOf(item);
      isDialogOpen := true;
    }

    /** The price field; `parsed` is what `parseFloat` made of the entry. */
    method EditPrice(parsed: Option<real>)
      modifies this`form
      ensures form == old(form).(price := NumberOrZero(parsed))
    {
      form := form.(price := NumberOrZero(parsed));
    }

    /** The discount field; a cleared field stores 0. */
    method EditDiscount(parsed: Option<real>)
      modifies this`form
      ensures form == old(form).(discount := Some(NumberOrZero(parsed)))
    {
      form := form.(discount := Some(NumberOrZero(parsed)));
    }

    /** Save. `hasShop` says whether a shop is signed in and `ok` what the
        store reports. A form that fails a check sends nothing; otherwise an
        update for the item being edited or an add for a new one is sent, and
        the dialog closes when the store succeeds. */
    method HandleSave(hasShop: bool, ok: bool) returns (check: SaveCheck)
      modifies this`requests, this`isSaving, this`isDialogOpen
      ensures check == CheckSave(form, hasShop)
      ensures check != Proceed ==> requests == old(requests) && isDialogOpen == old(isDialogOpen) && isSaving == old(isSaving)
      ensures check == Proceed && editingItem.Some? ==> requests == old(requests) + [UpdateItem(editingItem.value.id, FieldsOf(form))]
      ensures check == Proceed && editingItem.None? ==> requests == old(requests) + [AddItem(FieldsOf(form))]
      ensures check == Proceed ==> !isSaving && isDialogOpen == (old(isDialogOpen) && !ok)
    {
      check := CheckSave(form, hasShop);
      if check != Proceed {
        return;
      }
      isSaving := true;
      if editingItem.Some? {
        requests := requests + [UpdateItem(editingItem.value.id, FieldsOf(form))];
      } else {
        requests := requests + [AddItem(FieldsOf(form))];
      }
      if ok {
        isDialogOpen := false;
      }
      isSaving := false;
    }

    /** Delete: the request is sent, and the confirmation closes whatever the outcome. */
    method HandleDelete(id: string)
      modifies this`requests, this`isDeleting, this`deleteConfirm
      ensures requests == old(requests) + [DeleteItem(id)]
      ensures !isDeleting && deleteConfirm == None
    {
      isDeleting := true;
      requests := requests + [DeleteItem(id)];
      isDeleting := false;
      deleteConfirm := None;
    }

    /** The availability switch sends only the flipped flag. */
    method ToggleAvailability(id: string, currentAvailability: bool)
      modifies this`requests
      ensures requests == old(requests) + [SetAvailability(id, !currentAvailability)]
    {
      requests := requests + [SetAvailability(id, !currentAvailability)];
    }
  }
}
