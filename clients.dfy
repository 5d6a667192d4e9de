/** The clients page (src/routes/ClientsPage.jsx): its search and form handlers. */
module Clients {
  import opened Wrappers
  import opened Records
  import Seqs
  import Text

  /** The search test: the lowercased query occurs in the lowercased name or phone. */
  predicate Matches(c: Client, search: string)
  {
    var query := Text.ToLower(search);
    Text.Includes(Text.ToLower(c.name), query) || Text.Includes(Text.ToLower(OrEmpty(c.phone)), query)
  }

  /** `filtered`. */
  function Filtered(clients: seq<Client>, search: string): (r: seq<Client>)
    ensures forall x :: x in r <==> x in clients && Matches(x, search)
  {
    Seqs.Filter(clients, (c: Client) => Matches(c, search))
  }

  /**
   * A client is found iff the query occurs at some position of its lowercased name or
   * phone; an empty search keeps every client.
   */
  lemma {:induction false} SearchSpec(clients: seq<Client>, search: string)
    ensures forall x :: x in Filtered(clients, search) <==>
              x in clients && ((exists k :: Text.OccursAt(Text.ToLower(x.name), Text.ToLower(search), k))
                               || (exists k :: Text.OccursAt(Text.ToLower(OrEmpty(x.phone)), Text.ToLower(search), k)))
    ensures search == "" ==> Filtered(clients, search) == clients
  {
    forall x | x in clients
      ensures Matches(x, search) <==>
                (exists k :: Text.OccursAt(Text.ToLower(x.name), Text.ToLower(search), k))
                || (exists k :: Text.OccursAt(Text.ToLower(OrEmpty(x.phone)), Text.ToLower(search), k))
    {
      Text.IncludesAt(Text.ToLower(x.name), Text.ToLower(search));
      Text.IncludesAt(Text.ToLower(OrEmpty(x.phone)), Text.ToLower(search));
    }
    if search == "" {
      forall x | x in clients
        ensures Matches(x, search)
      {
        Text.EmptyIncluded(Text.ToLower(x.name));
      }
      Seqs.FilterAllPass(clients, (c: Client) => Matches(c, search));
    }
  }

  /** The form's five text fields. */
  datatype ClientForm = ClientForm(name: string, organization: string, activityField: string, contactName: string, phone: string)

  const EmptyForm := ClientForm("", "", "", "", "")

  const RequiredMessage := "Имя и телефон обязательны"

  /** `handleSubmit`: rejected when the name or the phone is empty. */
  function Submit(form: ClientForm, editingId: string): (r: Submission<ClientForm>)
    ensures r.Rejected? <==> form.name == "" || form.phone == ""
    ensures r.Update? <==> !r.Rejected? && editingId != ""
    ensures r.Update? ==> r == Update(editingId, form)
    ensures r.Add? ==> r == Add(form)
  {
    if form.name == "" || form.phone == "" then Rejected(RequiredMessage)
    else if editingId != "" then Update(editingId, form)
    else Add(form)
  }

  /** `startEdit`'s form: the name as stored, every missing optional field as "". */
  function EditForm(c: Client): (r: ClientForm)
    ensures r.name == c.name
    ensures r.organization == OrEmpty(c.organization) && r.activityField == OrEmpty(c.activityField)
    ensures r.contactName == OrEmpty(c.contactName) && r.phone == OrEmpty(c.phone)
    ensures c.phone.None? ==> r.phone == ""
  {
    ClientForm(c.name, OrEmpty(c.organization), OrEmpty(c.activityField), OrEmpty(c.contactName), OrEmpty(c.phone))
  }

  /** Editing a client without a phone and submitting it unchanged is refused. */
  lemma {:induction false} EditWithoutPhoneRefused(c: Client, id: string)
    requires c.phone.None?
    ensures Submit(EditForm(c), id).Rejected?
  {
  }

  /** The page's search text, form, editing id ("" for none) and modal flag. */
  class ClientsPage {
    var search: string
    var form: ClientForm
    var editingId: string
    var isModalOpen: bool

    constructor ()
      ensures search == "" && form == EmptyForm && editingId == "" && !isModalOpen
    {
      search := "";
      form := EmptyForm;
      editingId := "";
      isModalOpen := false;
    }

    /** `handleSubmit`: after success the form is all "" and the editing id cleared. */
    method HandleSubmit() returns (s: Submission<ClientForm>)
      modifies this
      ensures s == Submit(old(form), old(editingId))
      ensures s.Rejected? ==> form == old(form) && editingId == old(editingId) && isModalOpen == old(isModalOpen)
      ensures !s.Rejected? ==> form == EmptyForm && editingId == "" && !isModalOpen
      ensures search == old(search)
    {
      s := Submit(form, editingId);
      if !s.Rejected? {
        form := EmptyForm;
        editingId := "";
        isModalOpen := false;
      }
    }

    /** `startEdit(client)`. */
    method StartEdit(c: Client)
      modifies this
      ensures editingId == c.id && form == EditForm(c) && isModalOpen
      ensures search == old(search)
    {
      editingId := c.id;
      form := EditForm(c);
      isModalOpen := true;
    }
  }
}
