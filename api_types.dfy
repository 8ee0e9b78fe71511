/** The record shapes the REST client hands to the views (src/lib/api.ts). Only the shapes are
    modelled; the HTTP client itself is not part of this model. */
module ApiTypes {
  import opened Wrappers
  import Storage

  datatype Item = Item(id: int, name: string, category: Storage.Category, price: real, description: Option<string>)

  datatype InvoiceItem = InvoiceItem(id: int, invoiceId: int, itemId: int, quantity: int, price: real)

  /** `date` is the instant `new Date(date).getTime()` reads from the stored date string. */
  datatype Invoice = Invoice(
    id: int, invoiceNumber: string, customerName: string, customerPhone: Option<string>,
    date: int, items: seq<InvoiceItem>, total: real)
}
