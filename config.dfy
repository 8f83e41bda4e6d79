/**
 * The per-table column configuration of the two loaders, named as columns are
 * after sanitising (dots replaced by underscores).
 */
module Config {

  /** Columns each table keeps as STRING, named as they are after sanitising. */
  function StringColumns(table: string): seq<string> {
    match table
    case "categories" => ["id", "name"]
    case "clients" => ["id", "name", "corporate_name", "cpf", "cnpj", "nif", "contact_name",
      "contact_phone", "contact_email", "notes", "legal_type", "main_location_id"]
    case "locations" => ["id", "client_id", "name", "phone", "street", "number", "complement",
      "neighborhood", "city", "country", "state", "zip_code"]
    case "manufacturers" => ["id", "name"]
    case "products" => ["id", "type", "manufacturer_id", "category_id", "supply_category_id", "name",
      "upc_code", "barcode", "external_id", "image", "tags", "additional_barcodes", "ncm_code",
      "cest_code", "url", "inventories", "packing_id", "packing_name"]
    case "cashless" => ["transaction_id", "point_of_sale", "kind", "status", "installation_id",
      "planogram_item_id", "equipment_id", "equipment_label_number", "equipment_serial_number",
      "masked_card_number", "issuer_authorization_code", "order_id", "cancel_reason_detailed",
      "physical_locator", "place", "planogram_item", "cashless_error_friendly", "client_id",
      "client_name", "location_id", "location_name", "machine_id", "machine_asset_number",
      "machine_model_id", "machine_model_name", "good_id", "good_type", "good_category_id",
      "good_manufacturer_id", "good_name", "good_upc_code", "good_barcode", "eft_provider_id",
      "eft_provider_name", "eft_authorizer_id", "eft_authorizer_name", "eft_card_brand_id",
      "eft_card_brand_name", "eft_card_type_id", "eft_card_type_name",
      "cashless_error_complete_description", "payment_authorizer_id", "payment_authorizer_name"]
    case _ => []
  }

  /** Columns each table declares numeric; the schema builder types them FLOAT64. */
  function NumericColumns(table: string): seq<string> {
    match table
    case "products" => ["weight", "cost_price", "default_price", "vendible_balance", "packing_quantity"]
    case "locations" => ["latitude", "longitude"]
    case "cashless" => ["number_of_payments", "quantity", "value", "discount_value", "cost_price", "request_number"]
    case _ => []
  }

  /** Columns the CSV reader is asked to parse as dates; the schema builder never looks at this list. */
  function DateColumns(table: string): seq<string> {
    match table
    case "products" => ["created_at", "updated_at"]
    case "cashless" => ["occurred_at"]
    case _ => []
  }

  /** The cloud function's string columns: the script's, plus `combo_items` for cashless. */
  function StringColumnsCf(table: string): seq<string> {
    StringColumns(table) + (if table == "cashless" then ["combo_items"] else [])
  }

  /** The cloud function's date columns, converted with `pd.to_datetime`. */
  function DateColumnsCf(table: string): seq<string> {
    DateColumns(table)
  }

  /** The cloud function's numeric columns, one list for every table. */
  const NumericColumnsCf: seq<string> := ["request_number", "cost_price", "quantity", "value",
    "discount_value", "weight", "default_price", "vendible_balance", "packing_quantity"]
}
