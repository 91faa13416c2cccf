/** The service packages an invoice is raised against (client/lib/packages.ts). Prices are monthly rupees. */
module Packages {
  import opened Wrappers
  import Lists

  datatype Package = Package(
    id: string,
    name: string,
    price: int,
    description: string,
    features: seq<string>,
    monthlyLabel: string)

  const Description: string := "Scalable, results-driven solutions designed to grow with your business."

  const Starter: Package := Package("starter", "AI Starter Package", 30000, Description, [
    "20 AI-generated social media posts per month",
    "2 AI-optimized blog articles (800-1200 words each)",
    "AI-driven content calendar and scheduling",
    "Basic AI copywriting for ads and emails",
    "Campaign strategy development and setup",
    "AI-personalized email marketing (up to 1,000 subscribers)",
    "Rule-based chatbot for website (FAQ automation on 50 questions)",
    "Monthly AI-generated performance reports",
    "Monthly 2-hour AI strategy consultation",
    "Email support during business hours"], "/month")

  const Growth: Package := Package("growth", "AI Growth Package", 75000, Description, [
    "50 AI-generated social media posts per month",
    "8 AI-optimized blog articles with SEO analysis",
    "Dynamic content personalization for different audience segments",
    "Comprehensive campaign strategy across Google, Facebook, LinkedIn",
    "Advanced audience modeling and targeting",
    "Automated bid optimization and budget allocation",
    "AI-personalized campaigns (up to 5,000 subscribers)",
    "Natural language processing chatbot capabilities",
    "Appointment booking and scheduling integrations",
    "E-commerce support and product recommendations",
    "Multi-language support (2 languages)",
    "Weekly strategy sessions with AI specialists"], "/month")

  const Enterprise: Package := Package("enterprise", "AI Enterprise Package", 150000, Description, [
    "100+ AI-generated social media posts per month",
    "15 AI-optimized long-form content pieces with advanced SEO",
    "AI-powered customer journey optimization",
    "Advanced predictive analytics and forecasting",
    "Custom AI model training for your brand voice",
    "Integration with enterprise CRM and marketing automation",
    "Multi-language support (5+ languages)",
    "Dedicated account manager",
    "24/7 priority support with 1-hour response time",
    "Quarterly business reviews and strategy optimization"], "/month")

  /** `PACKAGES`, in catalogue order. */
  const Catalogue: seq<Package> := [Starter, Growth, Enterprise]

  /** No two positions of `xs` hold the same value. */
  predicate Distinct<T(==)>(xs: seq<T>) {
    forall i, j :: 0 <= i < j < |xs| ==> xs[i] != xs[j]
  }

  /** `PACKAGES.find(p => p.id === id)`. */
  function FindPackage(id: string): (r: Option<Package>)
    ensures r.Some? ==> r.value in Catalogue && r.value.id == id
    ensures r.None? ==> forall p :: p in Catalogue ==> p.id != id
  {
    Lists.FindFirst(Catalogue, (p: Package) => p.id == id)
  }

  /** The three ids are distinct, so each id finds its own package. */
  lemma IdsDistinct()
    ensures Starter.id != Growth.id && Growth.id != Enterprise.id && Starter.id != Enterprise.id
    ensures FindPackage("starter") == Some(Starter)
    ensures FindPackage("growth") == Some(Growth)
    ensures FindPackage("enterprise") == Some(Enterprise)
  {
    assert |Starter.id| == 7 && |Growth.id| == 6 && |Enterprise.id| == 10;
    FoundAt("starter", 0);
    FoundAt("growth", 1);
    FoundAt("enterprise", 2);
  }

  /** The first catalogue entry with the id is the one found. */
  lemma FoundAt(id: string, i: nat)
    requires i < |Catalogue| && Catalogue[i].id == id
    requires forall j :: 0 <= j < i ==> Catalogue[j].id != id
    ensures FindPackage(id) == Some(Catalogue[i])
  {
  }

  /** Any other id finds nothing. */
  lemma UnknownIdNotFound(id: string)
    requires id != "starter" && id != "growth" && id != "enterprise"
    ensures FindPackage(id).None?
  {
  }

  /** Prices are positive and rise along the catalogue. */
  lemma PricesIncrease()
    ensures forall i, j :: 0 <= i < j < |Catalogue| ==> 0 < Catalogue[i].price < Catalogue[j].price
  {
  }

  lemma FeaturesNonEmpty()
    ensures forall p :: p in Catalogue ==> |p.features| > 0
  {
  }

  /** Feature names are distinct within each package, so a map keyed by name has one entry per feature. */
  lemma FeaturesDistinct()
    ensures forall p :: p in Catalogue ==> Distinct(p.features)
  {
    StarterFeaturesDistinct();
    GrowthFeaturesDistinct();
    EnterpriseFeaturesDistinct();
  }

  lemma StarterFeaturesDistinct()
    ensures Distinct(Starter.features)
  {
  }

  lemma GrowthFeaturesDistinct()
    ensures Distinct(Growth.features)
  {
  }

  lemma EnterpriseFeaturesDistinct()
    ensures Distinct(Enterprise.features)
  {
  }
}
