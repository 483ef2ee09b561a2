/** The static tables: the regions of Chile, the electricity rate and the
    grid emission factor of each, and the appliance catalog. */
module Constants {
  import opened Wrappers
  import opened Types

  /** `keyof typeof REGIONS`: the fifteen region codes, north to south. */
  datatype Region = XV | I | II | III | IV | V | RM | VI | VII | VIII | IX | XIV | X | XI | XII

  /** The code as it is stored in the profile. */
  function Code(r: Region): string
  {
    match r
    case XV => "XV"
    case I => "I"
    case II => "II"
    case III => "III"
    case IV => "IV"
    case V => "V"
    case RM => "RM"
    case VI => "VI"
    case VII => "VII"
    case VIII => "VIII"
    case IX => "IX"
    case XIV => "XIV"
    case X => "X"
    case XI => "XI"
    case XII => "XII"
  }

  /** `REGIONS[r].name`. */
  function RegionName(r: Region): string
  {
    match r
    case XV => "Arica y Parinacota"
    case I => "Tarapacá"
    case II => "Antofagasta"
    case III => "Atacama"
    case IV => "Coquimbo"
    case V => "Valparaíso"
    case RM => "Metropolitana"
    case VI => "O'Higgins"
    case VII => "Maule"
    case VIII => "Biobío"
    case IX => "La Araucanía"
    case XIV => "Los Ríos"
    case X => "Los Lagos"
    case XI => "Aysén"
    case XII => "Magallanes"
  }

  /** `electricityCostCLPPerKwhByRegion[r]`: pesos per kWh. */
  function ElectricityCostCLPPerKwh(r: Region): (price: real)
    ensures 165.0 <= price <= 195.0
  {
    match r
    case XV => 195.0
    case I => 190.0
    case II => 185.0
    case III => 180.0
    case IV => 185.0
    case V => 190.0
    case RM => 195.0
    case VI => 190.0
    case VII => 185.0
    case VIII => 180.0
    case IX => 175.0
    case XIV => 175.0
    case X => 170.0
    case XI => 165.0
    case XII => 165.0
  }

  /** `carbonFactorKgPerKwhByRegion[r]`: kilograms of CO2 per kWh. */
  function CarbonFactorKgPerKwh(r: Region): (factor: real)
    ensures 0.18 <= factor <= 0.38
  {
    match r
    case XV => 0.32
    case I => 0.35
    case II => 0.38
    case III => 0.30
    case IV => 0.28
    case V => 0.27
    case RM => 0.25
    case VI => 0.26
    case VII => 0.27
    case VIII => 0.29
    case IX => 0.24
    case XIV => 0.23
    case X => 0.22
    case XI => 0.20
    case XII => 0.18
  }

  /** A rated power; every catalog appliance draws some. */
  type Watts = w: real | w > 0.0 witness 1.0

  /** One line of `APPLIANCES`: key, display name and rated power. */
  datatype CatalogItem = CatalogItem(key: string, name: string, watts: Watts)

  /** `APPLIANCES`, in declaration order (the order of `Object.entries`,
      which lists the options of the appliance selects), one constant per
      commented group of the source table. */
  const Catalog: seq<CatalogItem> :=
    Refrigeration + Kitchen + Laundry + Climate + Entertainment + Computing + Lighting + PersonalCare + Cleaning + OtherAppliances + Charging

  const Refrigeration: seq<CatalogItem> := [
    CatalogItem("refrigerator", "Refrigerador (2 puertas)", 150.0),
    CatalogItem("refrigerator_small", "Refrigerador pequeño", 100.0),
    CatalogItem("freezer", "Congelador horizontal", 200.0),
    CatalogItem("wine_cooler", "Cava de vinos", 80.0)
  ]

  const Kitchen: seq<CatalogItem> := [
    CatalogItem("microwave", "Microondas", 1200.0),
    CatalogItem("oven_electric", "Horno eléctrico", 2500.0),
    CatalogItem("induction_cooktop", "Anafe inducción", 2000.0),
    CatalogItem("electric_cooktop", "Anafe eléctrico", 1800.0),
    CatalogItem("kettle", "Hervidor eléctrico", 2000.0),
    CatalogItem("coffee_maker", "Cafetera eléctrica", 1000.0),
    CatalogItem("blender", "Licuadora", 400.0),
    CatalogItem("food_processor", "Procesador de alimentos", 600.0),
    CatalogItem("toaster", "Tostador", 800.0),
    CatalogItem("rice_cooker", "Arrocera", 300.0),
    CatalogItem("air_fryer", "Freidora de aire", 1400.0)
  ]

  const Laundry: seq<CatalogItem> := [
    CatalogItem("washing_machine", "Lavadora", 500.0),
    CatalogItem("washing_machine_efficient", "Lavadora eficiente A+++", 200.0),
    CatalogItem("dryer", "Secadora", 2500.0),
    CatalogItem("dishwasher", "Lavavajillas", 1800.0)
  ]

  const Climate: seq<CatalogItem> := [
    CatalogItem("ac_split", "Aire acondicionado split", 1200.0),
    CatalogItem("ac_portable", "Aire acondicionado portátil", 1000.0),
    CatalogItem("heater_resistance", "Estufa eléctrica", 2000.0),
    CatalogItem("heat_pump", "Bomba de calor", 800.0),
    CatalogItem("fan", "Ventilador", 50.0),
    CatalogItem("ceiling_fan", "Ventilador de techo", 75.0)
  ]

  const Entertainment: seq<CatalogItem> := [
    CatalogItem("tv", "Televisor LED 32\"", 100.0),
    CatalogItem("tv_large", "Televisor LED 55\"", 150.0),
    CatalogItem("tv_oled", "Televisor OLED 55\"", 120.0),
    CatalogItem("sound_system", "Equipo de sonido", 200.0),
    CatalogItem("gaming_console", "Consola de videojuegos", 150.0)
  ]

  const Computing: seq<CatalogItem> := [
    CatalogItem("computer", "Computador de escritorio", 200.0),
    CatalogItem("laptop", "Notebook", 60.0),
    CatalogItem("monitor", "Monitor LED 24\"", 25.0),
    CatalogItem("printer", "Impresora láser", 400.0),
    CatalogItem("router", "Router WiFi", 10.0)
  ]

  const Lighting: seq<CatalogItem> := [
    CatalogItem("incandescent_bulb", "Ampolleta incandescente 60W", 60.0),
    CatalogItem("led_bulb", "Ampolleta LED 9W", 9.0),
    CatalogItem("led_bulb_smart", "Ampolleta LED inteligente", 10.0),
    CatalogItem("fluorescent_tube", "Tubo fluorescente", 36.0)
  ]

  const PersonalCare: seq<CatalogItem> := [
    CatalogItem("hair_dryer", "Secador de pelo", 1800.0),
    CatalogItem("hair_straightener", "Plancha de pelo", 200.0),
    CatalogItem("electric_toothbrush", "Cepillo eléctrico (carga)", 2.0)
  ]

  const Cleaning: seq<CatalogItem> := [
    CatalogItem("vacuum", "Aspiradora", 800.0),
    CatalogItem("vacuum_robot", "Aspiradora robot", 30.0),
    CatalogItem("iron", "Plancha", 1200.0)
  ]

  const OtherAppliances: seq<CatalogItem> := [
    CatalogItem("water_heater_electric", "Calefón eléctrico", 3000.0),
    CatalogItem("water_pump", "Bomba de agua", 750.0),
    CatalogItem("garage_door", "Portón automático", 300.0),
    CatalogItem("security_system", "Sistema de seguridad", 50.0)
  ]

  const Charging: seq<CatalogItem> := [
    CatalogItem("phone_charger", "Cargador de celular", 5.0),
    CatalogItem("tablet_charger", "Cargador de tablet", 10.0),
    CatalogItem("laptop_charger", "Cargador de notebook", 65.0)
  ]

  /** The first item of `items` stored under `key`. */
  function Lookup(items: seq<CatalogItem>, key: string): (item: Option<CatalogItem>)
    ensures item.Some? ==> item.value in items && item.value.key == key
    ensures item.None? <==> forall i :: 0 <= i < |items| ==> items[i].key != key
  {
    if items == [] then None
    else if items[0].key == key then Some(items[0])
    else Lookup(items[1..], key)
  }

  /** An item that no earlier item shares its key with is what a lookup of
      that key finds. */
  lemma {:induction false} LookupFinds(items: seq<CatalogItem>, i: nat)
    requires i < |items|
    requires forall j :: 0 <= j < i ==> items[j].key != items[i].key
    ensures Lookup(items, items[i].key) == Some(items[i])
  {
    if i > 0 {
      LookupFinds(items[1..], i - 1);
    }
  }

  /** `APPLIANCES[key]`: the catalog entry, or `None` where JavaScript
      yields `undefined`. */
  function Appliance(key: string): (def: Option<ApplianceDefinition>)
    ensures def.Some? ==> def.value.watts > 0.0
  {
    match Lookup(Catalog, key)
    case Some(item) => Some(ApplianceDefinition(item.name, item.watts))
    case None => None
  }

  /** The region a stored code names, or `None` for any other string. */
  function RegionOfCode(code: string): Option<Region>
  {
    match code
    case "XV" => Some(XV)
    case "I" => Some(I)
    case "II" => Some(II)
    case "III" => Some(III)
    case "IV" => Some(IV)
    case "V" => Some(V)
    case "RM" => Some(RM)
    case "VI" => Some(VI)
    case "VII" => Some(VII)
    case "VIII" => Some(VIII)
    case "IX" => Some(IX)
    case "XIV" => Some(XIV)
    case "X" => Some(X)
    case "XI" => Some(XI)
    case "XII" => Some(XII)
    case _ => None
  }

  /** Reading a region's code back gives the region: the fifteen codes are
      distinct, and every region has one. */
  lemma {:induction false} RegionOfCodeRoundTrip(r: Region)
    ensures RegionOfCode(Code(r)) == Some(r)
  {
  }

  /** A string names a region exactly when it is one of the fifteen codes. */
  lemma {:induction false} RegionOfCodeIsCode(code: string)
    ensures RegionOfCode(code).Some? ==> Code(RegionOfCode(code).value) == code
  {
  }

  /** A key is found exactly when some catalog item carries it. */
  lemma ApplianceFoundIff(key: string)
    ensures Appliance(key).Some? <==> exists i :: 0 <= i < |Catalog| && Catalog[i].key == key
  {
  }

  /** The first appliance of the catalog is the dashboard's initial
      selection, found with its own name and power. */
  lemma FirstApplianceFound()
    ensures Appliance("refrigerator") == Some(ApplianceDefinition("Refrigerador (2 puertas)", 150.0))
  {
    assert Catalog[0] == Refrigeration[0];
    LookupFinds(Catalog, 0);
  }

  /** The second appliance is found past the first. */
  lemma SecondApplianceFound()
    ensures Appliance("refrigerator_small") == Some(ApplianceDefinition("Refrigerador pequeño", 100.0))
  {
    assert Catalog[0] == Refrigeration[0] && Catalog[1] == Refrigeration[1];
    LookupFinds(Catalog, 1);
  }

  /** The dashboard's initial comparison pair, the 60 W incandescent bulb
      and the 9 W LED bulb, is found with its own names and powers. */
  lemma ComparisonDefaultsPresent()
    ensures Appliance("incandescent_bulb") == Some(ApplianceDefinition("Ampolleta incandescente 60W", 60.0))
    ensures Appliance("led_bulb") == Some(ApplianceDefinition("Ampolleta LED 9W", 9.0))
  {
    LightingFound(0);
    LightingFound(1);
  }

  /** The first lighting items are found past the 35 keys before them. */
  lemma LightingFound(i: nat)
    requires i < 2
    ensures Lookup(Catalog, Lighting[i].key) == Some(Lighting[i])
  {
    var n := |Refrigeration + Kitchen + Laundry + Climate + Entertainment + Computing|;
    assert n == 35;
    assert Catalog[n + i] == Lighting[i];
    assert forall j :: 0 <= j < n + i ==> Catalog[j].key != Catalog[n + i].key;
    LookupFinds(Catalog, n + i);
  }
}
